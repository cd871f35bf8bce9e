# vela-makisu, modelled in Dafny

vela-makisu is a Vela plugin that builds and publishes container images with
[makisu](https://github.com/uber/makisu). Its behaviour comes down to four
parts, and this project models each one:

- **Command builders.** They turn configuration records into makisu argument
  vectors: `build` (with its docker, http-cache and redis-cache
  sub-records), `push`, and the global `--cpu-profile`/`--log-*` flags.
- **Registry file.** Makisu's registry configuration: an anonymous docker-hub
  entry, an optional anonymous mirror entry, and the credentialed registry
  entry, overlaid in that order and written once.
- **Validators.** Each reports its first missing setting.
- **Orchestration.** `Plugin.Exec` runs the version command, writes the
  registry file, hands the global flags and the registry file's path to
  build and push, runs the build, hands the built image's path to push and,
  unless it is a dry run, validates and runs the push. It stops at the first
  error. `Plugin.Validate` and `Plugin.Unmarshal` are modelled too.

The older configuration record in `cmd/vela-makisu/config.go` belongs to a
different revision of the plugin. It is modelled in its own module, `Config`:

- a docker `auths` file holding the base64 of `username:password`;
- its validator;
- its variant of the global flags.

Files and modules:

| file | module | what it holds |
|---|---|---|
| `wrappers.dfy` | `Wrappers` | `Option`, the Go `error` as `Outcome`, what a JSON decoder hands back as `Decoded` |
| `environment.dfy` | `Environment` | the process runner and the file writer as one `Host` value that records every run and every write and answers from a fixed script |
| `tokens.dfy` | `Tokens` | the four token shapes (`--f v`, `--f "a b"`, `--f=v`, `--f`), the conditional appends and the list-joining loop as methods, the table a command is rendered from, and a parser that reads a command line back (the partner of every builder) |
| `build.dfy` | `Build` | `Build.Command` and its helpers, `isDurationZero`, `Build.Exec`, `Build.Unmarshal`, `Build.Validate` |
| `push.dfy` | `Push` | `Push.Command`, `Push.Exec`, `Push.Validate` |
| `global.dfy` | `Global` | `Global.Flags` |
| `registry.dfy` | `Registry` | `Registry.Write` as overlays on a map, `Registry.Validate` |
| `base64.dfy` | `Base64` | UTF-8 bytes of a string; standard padded base64 (section 4 of RFC 4648) and a decoder for it |
| `config.dfy` | `Config` | `Config.Write`, `Config.Unmarshal`, `Config.Validate`, and that revision's `Global.Flags` |
| `plugin.dfy` | `Plugin` | `Plugin.Exec`, `Plugin.Unmarshal`, `Plugin.Validate` |

Each command builder is modelled twice:

- as the source writes it: an imperative method of conditional appends, with
  a `for` loop that accumulates `" " + element` and trims the first space;
- as a table of flags rendered in order.

The method is proved equal to the table. The table is proved to read back,
through the parser, to the per-flag values it was built from (a list field
as its space-joined text, a duration as its rendered text) and the context.
Every flag is
proved to contribute exactly one token when its field is populated, and none
otherwise. Populated flags are proved to keep table order.

`Plugin.Exec` is a method on a `Plugin` class whose `build` and `push` are
objects it updates in place. Its contract has four parts:

- the error it returns;
- the host it leaves (the runs and the files, in order);
- the new values of the five fields it assigns;
- and nothing else, through its `modifies` clause.

The lemmas about `Results` state the properties of the step sequence: the
first failure wins, a dry run skips the push, and the number of runner
invocations.

## Model

| member | source | states |
|---|---|---|
| Tokens.StringValue | cmd/vela-makisu/build.go:254-257 | a string field is populated exactly when it is non-empty, and then its value is the string itself |
| Tokens.ListValue | cmd/vela-makisu/build.go:244-251 | a list field is populated exactly when the list is non-empty, and then its value is the elements joined by single spaces |
| Tokens.SwitchValue | cmd/vela-makisu/build.go:294-297 | a switch is populated exactly when it is true, with no value |
| Tokens.TrimPrefix | cmd/vela-makisu/build.go:250 | `strings.TrimPrefix`: when `s` starts with the prefix, it is the prefix followed by the result; otherwise the result is `s` |
| Tokens.SpacedIsJoin | cmd/vela-makisu/build.go:245-248 | what the loop accumulates, every element behind one space, is one space followed by `strings.Join(xs, " ")` |
| Tokens.JoinSnoc | cmd/vela-makisu/build.go:245-248 | joining a list with one more element appends the separator and that element |
| Tokens.JoinArgs | cmd/vela-makisu/build.go:245-250 | the `for` loop over the elements followed by `TrimPrefix(args, " ")` yields the elements joined by single spaces |
| Tokens.AppendValued | cmd/vela-makisu/build.go:254-257 | appends the single token "--flag value" exactly when the value is non-empty, and nothing else |
| Tokens.AppendQuoted | cmd/vela-makisu/build.go:244-251 | appends the single token `--flag "<joined elements>"` exactly when the list is non-empty, and nothing else |
| Tokens.AppendAssigned | cmd/vela-makisu/global.go:75-78 | appends the single token "--flag=value" exactly when the value is non-empty, and nothing else |
| Tokens.AppendBare | cmd/vela-makisu/build.go:294-297 | appends the bare token "--flag" exactly when the switch is on, and nothing else |
| Tokens.Render | cmd/vela-makisu/build.go:254-257 | a setting renders as one token when populated and none otherwise |
| Tokens.RenderAllLength | cmd/vela-makisu/build.go:241-363 | a table yields one token per populated field, so never more tokens than fields |
| Tokens.Settings | cmd/vela-makisu/build.go:241-363 | pairs each flag of a table with its field's value, one setting per flag |
| Tokens.SettingsAt | cmd/vela-makisu/build.go:241-363 | the `i`-th setting is the `i`-th flag with the `i`-th value |
| Tokens.NothingPopulated | cmd/vela-makisu/build.go:374-397 | a table with no populated field yields no token |
| Tokens.SettingsAppend | cmd/vela-makisu/build.go:276 | the settings of two tables one after the other are the settings of the joined table |
| Tokens.RenderAllAppend | cmd/vela-makisu/build.go:276 | the tokens of two runs of settings are the tokens of the first followed by those of the second (`append(flags, helper...)`) |
| Tokens.RenderAllCons | cmd/vela-makisu/build.go:244-251 | the first setting's tokens come before the rest |
| Tokens.TableAppend | cmd/vela-makisu/build.go:276 | a helper's tokens appended to the builder's are the tokens of the joined table |
| Tokens.EmittedPrefix | cmd/vela-makisu/build.go:241-363 | after the first `k` conditional appends, the flags hold the tokens of the first `k` settings behind what was there before |
| Tokens.EmittedAll | cmd/vela-makisu/build.go:241-363 | after all the appends, the flags hold the tokens of the whole table |
| Tokens.TokenPresent | cmd/vela-makisu/build.go:254-257 | a populated field's token is among the table's tokens |
| Tokens.TokensInOrder | cmd/vela-makisu/build.go:241-363 | of two populated fields, the earlier one's token comes first |
| Tokens.WellFormedByRows | cmd/vela-makisu/build.go:241-363 | a table whose every row has a proper flag name that no later row repeats has distinct, proper names |
| Tokens.WellFormedStep | cmd/vela-makisu/build.go:241-363 | one more such row in front keeps a table well formed |
| Tokens.BareValuesAppend | cmd/vela-makisu/build.go:294-315 | bare switches carry the empty value in the joined table if they do in both parts |
| Tokens.ParseAll | cmd/vela-makisu/build.go:241-363 | the reader of a token list yields one value per flag of the table, when it succeeds |
| Tokens.HeadOfName | cmd/vela-makisu/build.go:254-257 | the flag part of a token is the flag's name when a space, an '=' or nothing follows it |
| Tokens.HeadOfToken | cmd/vela-makisu/build.go:254-257 | every token's flag part is its flag's name |
| Tokens.ParseTokenOfToken | cmd/vela-makisu/build.go:244-257 | reading a token as its own flag gives back its value (the empty value for a bare switch) |
| Tokens.WellFormedTail | cmd/vela-makisu/build.go:241-363 | dropping the first row keeps a table well formed |
| Tokens.RenderFirst | cmd/vela-makisu/build.go:241-363 | a table's tokens are the first setting's followed by the rest's |
| Tokens.FirstHead | cmd/vela-makisu/build.go:241-363 | the first token of a non-empty table names one of its flags |
| Tokens.ParseTaken | cmd/vela-makisu/build.go:241-363 | a populated first field is read back from the token in front |
| Tokens.ParseSkipped | cmd/vela-makisu/build.go:241-363 | an empty first field is read back as absent when no token names it |
| Tokens.RoundTrip | cmd/vela-makisu/build.go:241-363 | reading a table's tokens back gives exactly the values they came from: no token is lost, duplicated, reordered or taken for another flag |
| Tokens.FirstHeadOfRest | cmd/vela-makisu/build.go:241-363 | in a well-formed table, no later token names the first flag |
| Tokens.CountAppend | cmd/vela-makisu/build.go:276 | the tokens naming a flag in two lists add up |
| Tokens.CountFirst | cmd/vela-makisu/build.go:241-363 | the first setting names its own flag once when populated, and names no other flag |
| Tokens.CountAbsent | cmd/vela-makisu/build.go:241-363 | no token names a flag that is not in the table |
| Tokens.CountHeadPositive | cmd/vela-makisu/build.go:241-363 | a token in a list is counted under its flag part |
| Tokens.CountHeadZero | cmd/vela-makisu/build.go:241-363 | a list where no token has a given token's flag part does not hold that token |
| Tokens.ExactlyOneToken | cmd/vela-makisu/build.go:241-363 | in a well-formed table, each flag names exactly one token when its field is populated and none otherwise |
| Tokens.CommandLine | cmd/vela-makisu/build.go:365-369 | a command line is the action first and the positional argument last, even when it is empty, with the table's tokens between them |
| Tokens.ParseCommand | cmd/vela-makisu/build.go:365-369 | reading a command line back checks the action and returns the positional argument and one value per flag |
| Tokens.CommandRoundTrip | cmd/vela-makisu/build.go:365-369 | reading a command line back gives the values and the positional argument it was built from |
| Tokens.CommandFlag | cmd/vela-makisu/build.go:241-363 | each flag of a well-formed table is named by exactly one token of the command line when populated, with its value, and by none otherwise |
| Tokens.CommandInOrder | cmd/vela-makisu/build.go:241-369 | populated fields keep table order in the command line, between the action and the positional argument |
| Build.IsDurationZero | cmd/vela-makisu/build.go:526-539 | given Go's rendering of durations, `isDurationZero(t)` holds exactly when `t` is zero |
| Build.DurationValue | cmd/vela-makisu/build.go:300-303 | a duration field is populated exactly when it is non-zero, and its value is the duration's text |
| Build.AppendDuration | cmd/vela-makisu/build.go:300-303 | appends "--flag <duration>" exactly when the duration is not zero |
| Build.Docker.Flags | cmd/vela-makisu/build.go:374-397 | the docker helper's tokens are those of its table, host then scheme then version, and an all-empty record yields none |
| Build.HTTPCache.Flags | cmd/vela-makisu/build.go:401-422 | the http-cache helper's tokens are the address then the quoted headers, and an all-empty record yields none |
| Build.RedisCache.Flags | cmd/vela-makisu/build.go:426-449 | the redis-cache helper's tokens are the address, the password and a non-zero ttl, and an all-empty record yields none |
| Build.BuildSchemaWellFormed | cmd/vela-makisu/build.go:244-362 | the 24 build flags, helpers included, have proper and pairwise distinct names |
| Build.BuildRow | cmd/vela-makisu/build.go:244-362 | each row of the build table has a proper name that no later row repeats |
| Build.BuildSchemaFrom | cmd/vela-makisu/build.go:244-362 | every suffix of the build table is well formed |
| Build.Options.Argv | cmd/vela-makisu/build.go:365-369 | the build argument list starts with "build", ends with the context even when it is empty, holds the table's tokens in between, and has 2 to 26 elements |
| Build.Options.Runs | cmd/vela-makisu/build.go:241-363 | the build table's tokens are the builder's runs and the three helpers' tokens in the source's order |
| Build.Build.AppendLeading | cmd/vela-makisu/build.go:244-273 | build-arg, commit, compression and blacklist are appended in that order, each only when set |
| Build.Build.AppendOutput | cmd/vela-makisu/build.go:279-288 | dest then file are appended, each only when set |
| Build.Build.AppendLayers | cmd/vela-makisu/build.go:294-325 | load, local-cache-ttl, modifyfs, preserve-root and push are appended in that order, each only when set |
| Build.Build.AppendTrailing | cmd/vela-makisu/build.go:331-362 | registry-config, replica, storage, tag and target are appended in that order, each only when set |
| Build.Build.Command | cmd/vela-makisu/build.go:237-370 | `Build.Command` yields exactly the build argument list of its current settings |
| Build.Build.Exec | cmd/vela-makisu/build.go:452-465 | runs the build argument list once and returns the runner's answer |
| Build.Build.Unmarshal | cmd/vela-makisu/build.go:469-505 | allocates the three sub-records at zero values, then decodes them in order, stopping at the first that fails; the error is that first failure; a syntax error leaves its record at zero, a type mismatch leaves the fields that fit, and the records after it stay at zero |
| Build.UnmarshalResult | cmd/vela-makisu/build.go:478-504 | the decoding succeeds exactly when all three options decode; otherwise the first failure, in the order docker, http-cache, redis-cache, is the error |
| Build.Build.Validate | cmd/vela-makisu/build.go:508-522 | fails with "no build context provided" without a context, else with "no build tag provided" without a tag, and passes exactly when both are set |
| Build.BuildBareValues | cmd/vela-makisu/build.go:294-315 | only the load, modifyfs and preserve-root switches are bare, and they carry no value |
| Build.BuildRoundTrip | cmd/vela-makisu/build.go:237-370 | reading the build command line back recovers every flag's value (a list as its space-joined text, a duration as its text) and the context |
| Build.BuildArgsJoined | cmd/vela-makisu/build.go:244-251 | a build argument holding a space and the two arguments it splits into give different options but the same command line, so lists are recovered only as their joined text |
| Build.BuildInOrder | cmd/vela-makisu/build.go:244-365 | populated build flags appear in the fixed table order, between "build" and the context |
| Build.BuildFlags | cmd/vela-makisu/build.go:241-363 | the tokens between "build" and the context are the table's |
| Build.BuildFlagOnce | cmd/vela-makisu/build.go:244-362 | every build flag names exactly one token, with its field's value, when the field is populated, and none otherwise |
| Build.BuildScalarTokens1 | cmd/vela-makisu/build.go:254-263 | commit and compression each contribute exactly one "--flag value" token iff non-empty |
| Build.BuildScalarTokens2 | cmd/vela-makisu/build.go:279-288 | dest and file each contribute exactly one "--flag value" token iff non-empty |
| Build.BuildScalarTokens3 | cmd/vela-makisu/build.go:331-350 | registry-config and storage each contribute exactly one "--flag value" token iff non-empty |
| Build.BuildScalarTokens4 | cmd/vela-makisu/build.go:353-362 | tag and target each contribute exactly one "--flag value" token iff non-empty |
| Build.BuildSwitchTokens | cmd/vela-makisu/build.go:294-315 | "--load", "--modifyfs" and "--preserve-root" each appear exactly once iff their switch is on, and not at all otherwise |
| Build.BuildListTokens1 | cmd/vela-makisu/build.go:244-273 | build-arg and blacklist (the deny list) each contribute exactly one quoted, space-joined token iff the list is non-empty |
| Build.BuildListTokens2 | cmd/vela-makisu/build.go:318-344 | push and replica each contribute exactly one quoted, space-joined token iff the list is non-empty |
| Build.BuildListTokens3 | cmd/vela-makisu/build.go:412-419 | the http-cache headers contribute exactly one quoted, space-joined token iff non-empty |
| Build.BuildDurationTokens | cmd/vela-makisu/build.go:300-303 | "--local-cache-ttl" and "--redis-cache-ttl" each appear exactly once, with the duration's text, iff the duration is not zero |
| Build.BuildDockerTokens | cmd/vela-makisu/build.go:374-397 | the docker host, scheme and version each contribute exactly one token iff non-empty |
| Build.BuildHTTPCacheTokens | cmd/vela-makisu/build.go:406-409 | the http-cache address contributes exactly one token iff non-empty |
| Build.BuildRedisCacheTokens | cmd/vela-makisu/build.go:431-440 | the redis-cache address and password each contribute exactly one token iff non-empty |
| Push.PushSchemaWellFormed | cmd/vela-makisu/push.go:50-80 | the four push flags have proper, pairwise distinct names |
| Push.Push.Values | cmd/vela-makisu/push.go:50-80 | one value per push flag |
| Push.Push.Argv | cmd/vela-makisu/push.go:82-87 | the push argument list starts with "push", ends with the context path even when empty, holds the table's tokens in between, and has 2 to 6 elements |
| Push.Push.Command | cmd/vela-makisu/push.go:44-88 | `Push.Command` yields exactly the push argument list |
| Push.Push.Exec | cmd/vela-makisu/push.go:91-104 | runs the push argument list once and returns the runner's answer |
| Push.Push.Validate | cmd/vela-makisu/push.go:107-121 | fails with "no push context provided" without a context path, else with "no push tag provided" without a tag, and passes exactly when both are set |
| Push.PushRoundTrip | cmd/vela-makisu/push.go:44-88 | reading the push command line back recovers every flag's value (a list as its space-joined text) and the context path |
| Push.PushTokens | cmd/vela-makisu/push.go:50-80 | push and replica each contribute at most one quoted, space-joined token, only when non-empty; registry-config and tag exactly one "--flag value" token iff non-empty |
| Push.PushInOrder | cmd/vela-makisu/push.go:50-83 | populated flags appear in the order push, registry-config, replica, tag, between "push" and the context path |
| Push.PushEmpty | cmd/vela-makisu/push.go:48-87 | with no flag set the list is `["push", contextPath]`, so the zero push yields `["push", ""]` |
| Global.GlobalSchemaWellFormed | cmd/vela-makisu/global.go:69-90 | the four global flags have proper, pairwise distinct names |
| Global.Global.FlagTokens | cmd/vela-makisu/global.go:62-93 | the global flags are at most four tokens |
| Global.Global.Flags | cmd/vela-makisu/global.go:62-93 | `Global.Flags` yields exactly the tokens of the global table, in the order cpu-profile, log-fmt, log-level, log-output |
| Global.GlobalTokens | cmd/vela-makisu/global.go:69-90 | each non-empty log setting yields exactly one "--log-x=value" token and an empty one none; "--cpu-profile" appears once iff the profile is on |
| Global.GlobalProfile | cmd/vela-makisu/global.go:69-72 | the exact token "--cpu-profile", with no value and no trailing space, is present iff the profile is on |
| Global.GlobalInOrder | cmd/vela-makisu/global.go:62-93 | populated settings appear in the order cpu-profile, log-fmt, log-level, log-output |
| Global.GlobalNone | cmd/vela-makisu/global.go:66-92 | with the profile off and every log setting empty there is no global flag |
| Global.GlobalRoundTrip | cmd/vela-makisu/global.go:62-93 | reading the global flags back recovers every setting |
| Registry.Entry | cmd/vela-makisu/registry.go:57-73 | a host's entry has the one path pattern ".*", with TLS client disabled = false and the given username and password |
| Registry.ApplyAllKeys | cmd/vela-makisu/registry.go:131-166 | overlaying adds exactly the overlays' hosts to the map's keys |
| Registry.ApplyAllLast | cmd/vela-makisu/registry.go:163 | the last overlay of a host replaces that host's entry wholesale |
| Registry.ApplyAllUniform | cmd/vela-makisu/registry.go:134-152 | a host every overlay of which carries the same entry ends with that entry |
| Registry.ApplyAllAbsent | cmd/vela-makisu/registry.go:131-166 | overlays of other hosts leave a host's entry as it was |
| Registry.Registry.Write | cmd/vela-makisu/registry.go:127-179 | overlays hub, mirror (only when set) and registry on an empty map, then writes the serialized merged map once, to "/makisu/registry/config.json" with mode 0644; a failed write is the error and leaves no file |
| Registry.Registry.Validate | cmd/vela-makisu/registry.go:182-201 | checks the password, then the name ("no config address provided"), then the username, reporting the first missing one, and passes exactly when all three are set |
| Registry.RegistryHosts | cmd/vela-makisu/registry.go:131-166 | the merged map's hosts are exactly "index.docker.io" and the name, plus the mirror when it is non-empty |
| Registry.RegistryCredentials | cmd/vela-makisu/registry.go:155-166 | the name's entry holds the username and password under ".*" with TLS client disabled = false, even when the mirror or the hub is the same host |
| Registry.RegistryAnonymous | cmd/vela-makisu/registry.go:19-54 | every other host (the hub, the mirror) has empty credentials with TLS client disabled = false |
| Base64.CharBytes | cmd/vela-makisu/config.go:138 | a character has one to four UTF-8 bytes, one exactly for ASCII, and continuation bytes in 128..191 |
| Base64.Utf8 | cmd/vela-makisu/config.go:138 | a string has at least as many UTF-8 bytes as characters |
| Base64.Utf8Append | cmd/vela-makisu/config.go:138 | the UTF-8 bytes of two strings joined are the bytes of each, joined |
| Base64.Utf8Ascii | cmd/vela-makisu/config.go:138 | an ASCII string's bytes are its character codes |
| Base64.LetterIndex | cmd/vela-makisu/config.go:137 | each base64 letter is read back as its index, and '=' is not a letter |
| Base64.SplitJoin0 | cmd/vela-makisu/config.go:137 | splitting bytes into sextets and joining them back restores the first byte |
| Base64.SplitJoin1 | cmd/vela-makisu/config.go:137 | splitting and joining back restores the second byte |
| Base64.SplitJoin2 | cmd/vela-makisu/config.go:137 | splitting and joining back restores the third byte |
| Base64.JoinSplit | cmd/vela-makisu/config.go:137 | joining sextets into bytes and splitting them again restores the sextets |
| Base64.JoinSplitPadded | cmd/vela-makisu/config.go:137 | the same holds for a padded quad whose unused bits are zero |
| Base64.PaddedBitsZero | cmd/vela-makisu/config.go:137 | the bits that padding leaves unused are zero |
| Base64.Quad | cmd/vela-makisu/config.go:137 | three bytes encode as four letters |
| Base64.PadTwo | cmd/vela-makisu/config.go:137 | one final byte encodes as four characters, two of them '=' |
| Base64.PadOne | cmd/vela-makisu/config.go:137 | two final bytes encode as four characters, the last '=' |
| Base64.Encode | cmd/vela-makisu/config.go:137-139 | the encoding is empty exactly when the bytes are |
| Base64.QuadIndices | cmd/vela-makisu/config.go:137 | the letters of a quad read back as its sextets |
| Base64.QuadRoundTrip | cmd/vela-makisu/config.go:137 | a full quad decodes to its three bytes |
| Base64.PadTwoRoundTrip | cmd/vela-makisu/config.go:137 | a quad padded with "==" decodes to its one byte |
| Base64.PadOneRoundTrip | cmd/vela-makisu/config.go:137 | a quad padded with "=" decodes to its two bytes |
| Base64.OneByteRoundTrip | cmd/vela-makisu/config.go:137 | one byte encodes and decodes back to itself |
| Base64.TwoBytesRoundTrip | cmd/vela-makisu/config.go:137 | two bytes encode and decode back to themselves |
| Base64.ThreeBytesRoundTrip | cmd/vela-makisu/config.go:137 | three bytes encode and decode back to themselves |
| Base64.DecodeCons | cmd/vela-makisu/config.go:137 | a string is decoded quad by quad |
| Base64.EncodeRoundTrip | cmd/vela-makisu/config.go:137-139 | decoding the encoding of any bytes gives those bytes back |
| Base64.EncodeLength | cmd/vela-makisu/config.go:137-139 | the encoding has four characters for every three bytes or part of three |
| Base64.QuadCanonical | cmd/vela-makisu/config.go:137 | a quad that decodes is the encoding of what it decodes to |
| Base64.FinalCanonical | cmd/vela-makisu/config.go:137 | a final quad that decodes is the encoding of what it decodes to |
| Base64.DecodeCanonical | cmd/vela-makisu/config.go:137-139 | a string that decodes is the encoding of what it decodes to, so the encoding is one-to-one |
| Config.UpToQuote | cmd/vela-makisu/config.go:20-26 | the longest leading part without a double quote, which is followed by a quote or is everything |
| Config.UpToQuoteAppend | cmd/vela-makisu/config.go:20-26 | a quote-free string before a quote is read up to that quote |
| Config.AfterPrefix | cmd/vela-makisu/config.go:20-26 | what follows a prefix, when the text starts with it |
| Config.AfterPrefixAppend | cmd/vela-makisu/config.go:20-26 | what follows a prefix in front of a text is that text |
| Config.AuthsFileRead | cmd/vela-makisu/config.go:20-26 | the auths file reads back as its one registry address and its auth value, when neither holds a double quote |
| Config.EncodeNoQuote | cmd/vela-makisu/config.go:137-139 | base64 text never holds a double quote |
| Config.Global.Values | cmd/vela-makisu/config.go:198-229 | one value per flag of this revision's global table |
| Config.Global.Current | cmd/vela-makisu/config.go:198-229 | the same settings as a global.go record, with both parts present |
| Config.Global.Flags | cmd/vela-makisu/config.go:198-229 | this revision's `Global.Flags` yields exactly the tokens of its table, whose cpu-profile token is "--cpu-profile " |
| Config.LegacyGlobalFlags | cmd/vela-makisu/config.go:204-208 | this revision differs from global.go only in the first token: "--cpu-profile " with a trailing space when the profile is on; the order and the `=`-joined log tokens are the same |
| Config.LegacyProfileMissing | cmd/vela-makisu/config.go:207 | this revision never emits the exact token "--cpu-profile", even with the profile on |
| Config.Config.Write | cmd/vela-makisu/config.go:128-149 | writes the auths file holding the url and the base64 of "username:password", once, to "/makisu/.docker/config.json" with mode 0644; a failed write is the error and leaves no file |
| Config.ConfigAuth | cmd/vela-makisu/config.go:137-139 | the auth value decodes to the UTF-8 bytes of the username, a colon and the password |
| Config.ConfigFile | cmd/vela-makisu/config.go:141-146 | the file names the configured url as its single `auths` key and carries the auth value |
| Config.Config.Unmarshal | cmd/vela-makisu/config.go:153-172 | an empty raw setting leaves an empty global record and no error; otherwise the decoded record; on a type mismatch the partly filled record and the decoder's error; on a syntax error the empty record and the decoder's error |
| Config.Config.Validate | cmd/vela-makisu/config.go:175-194 | checks password ("no config password provided"), then url ("no config url provided"), then username ("no config username provided"), and passes exactly when all three are set |
| Environment.Host.RunResult | cmd/vela-makisu/build.go:459-462 | the runner fails a run exactly when its index is scripted to fail |
| Environment.Host.WriteResult | cmd/vela-makisu/registry.go:178 | the writer fails exactly when it is scripted to |
| Environment.Host.Run | cmd/vela-makisu/build.go:459 | a run is recorded at the end of the runs, whatever its outcome, and its outcome is the script's answer |
| Environment.Host.WriteFile | cmd/vela-makisu/registry.go:178 | a write that succeeds is recorded at the end of the files, and a failed one records nothing |
| Plugin.FirstFailure | cmd/vela-makisu/plugin.go:108-131 | passes exactly when every outcome passes, and otherwise is one of the failures |
| Plugin.FirstFailureAt | cmd/vela-makisu/plugin.go:108-131 | the first failing outcome decides, whatever follows it |
| Plugin.Results.Outcomes | cmd/vela-makisu/plugin.go:33-76 | the steps that run are five, or three under dry-run |
| Plugin.LeavesAfterVersion | cmd/vela-makisu/plugin.go:33-79 | after a successful version run, the rest of the steps leave the host with all the runs of `Invocations` and the registry file |
| Plugin.ExecVerdict | cmd/vela-makisu/plugin.go:33-79 | `Exec`'s result is the first failure among the steps that run, in their order |
| Plugin.ExecSuccess | cmd/vela-makisu/plugin.go:33-79 | every step succeeds iff version, registry file and build pass and, unless dry-run, the push validator and the push pass; then the runner is invoked exactly 3 times (version, build, push), or twice under dry-run |
| Plugin.ExecStops | cmd/vela-makisu/plugin.go:33-76 | the first failing step's error is the outcome and no later step runs: the runner sees only the commands up to the failing one |
| Plugin.ExecDryRun | cmd/vela-makisu/plugin.go:65-79 | under dry-run the push is neither validated nor run, and the outcome is that of version, registry file and build |
| Plugin.ExecRegistryConfig | cmd/vela-makisu/plugin.go:52-53 | once the path is handed off, the build and push command lines each carry "--registry-config /makisu/registry/config.json" exactly once |
| Plugin.Plugin.constructor | cmd/vela-makisu/plugin.go:15-26 | a plugin built from its parts, with no global record yet |
| Plugin.Plugin.HandOff | cmd/vela-makisu/plugin.go:44-53 | build and push get the same global flags and the registry file's path |
| Plugin.Plugin.BuildAndPush | cmd/vela-makisu/plugin.go:55-79 | runs the build; on success hands the image path to push and, unless dry-run, validates and runs the push; the error and the runs are those of the steps reached |
| Plugin.Plugin.Stage | cmd/vela-makisu/plugin.go:44-79 | the handoff of the global flags and the registry file's path, then the build and push steps |
| Plugin.Plugin.Publish | cmd/vela-makisu/plugin.go:39-79 | the registry file, then the rest, stopping at a failed write |
| Plugin.Plugin.Exec | cmd/vela-makisu/plugin.go:29-80 | runs version, registry file, handoff, build, path handoff, push validation and push, in that order, stopping at the first error; returns that error, leaves the host with exactly the runs and files of the steps reached, and sets build and push fields as `HandedOff` says (same global flags and registry path on both before the build, image path after it) |
| Plugin.Plugin.Unmarshal | cmd/vela-makisu/plugin.go:84-105 | an empty raw setting sets an empty global record and returns no error; otherwise the decoded record; on a type mismatch the partly filled record and the decoder's error; on a syntax error the empty record and the decoder's error |
| Plugin.Plugin.Validate | cmd/vela-makisu/plugin.go:108-131 | runs the registry validator, then the build's option decoding, then the build validator, and returns the first error; passes exactly when all three would; the sub-records are decoded only once the registry validates; the push is never validated |

## Left out

- The CLI flag tables (`buildFlags`, `configFlags`, `globalFlags`, `pushFlags`) and `cmd/vela-makisu/main.go` are not part of this model. They register and load settings; the model starts from loaded records.
- `execCmd`, `versionCmd` and `_makisu` are not part of this model. The version command's argument list is a parameter of `Plugin.Plugin.Exec`. The runner is the `Host` value, which records each argument vector and answers from a script (`failing`).
- The afero filesystem is the same `Host` value. It records each write as (path, content, mode) and fails by script (`writeFails`).
- Build.Build.Exec: the plugin.go revision reads a returned image path that build.go's `Build.Exec` does not return. The path is `Host.artifact`, which the build step reports.
- Plugin.Plugin.Exec: plugin.go reads `p.Registry.DryRun`, and `Registry` has no such field. Dry-run is a parameter.
- Plugin.Plugin.Exec: plugin.go assigns `Build.GlobalFlags`, `Push.GlobalFlags` and `Push.Path`. build.go and push.go declare none of them. The model adds these fields to its `Build` and `Push` classes; neither command line reads them, as in build.go and push.go.
- JSON decoding in `Build.Unmarshal`, `Plugin.Unmarshal` and `Config.Unmarshal`:
  - These methods take the decoder's result (`Decoded`) as input.
  - A failed decoding carries the decoder's reason. It is `Rejected` for a syntax error, which `json.Unmarshal` finds before storing anything, and `Mismatched` for a value of the wrong type, after which the fields that fit have been stored. Which of the two a given string is, and what a mismatch stores, are the caller's input.
  - For the global record, `None` stands for the JSON literal null.
- Build.Build.Unmarshal: build.go decodes each raw option even when it is empty, unlike plugin.go and config.go, which skip an empty global setting. `json.Unmarshal` rejects empty input, so in the source an empty raw option always fails the decoding, while plugin_test.go's `TestMakisu_Plugin_Validate` leaves all three empty and expects success. The model takes the decoder's answer as input and cannot say that an empty string is rejected.
- Build.BuildRoundTrip, Push.PushRoundTrip: the command line joins a list field with spaces, so an element holding a space cannot be told apart from two elements (`Build.BuildArgsJoined`); the round trips recover each flag's text, not the lists themselves.
- Build.Build.Unmarshal: a raw option that is the JSON literal null would set that sub-record back to nil. The model's decoded values are always records.
- Registry.Registry.Write:
  - The templates and `json.Unmarshal` are modelled as map updates: each overlay replaces its host's entry.
  - `json.Marshal` is modelled as the `Serialized` content holding the map; its bytes are not modelled.
  - Write requires every substituted string to be JSON-safe (no quote, backslash or control character), because `fmt.Sprintf` escapes nothing.
  - Both `Unmarshal` errors and the `Marshal` error cannot occur for such strings, so they are not modelled.
- `time.Duration.String` is the parameter `text`. Only what `RendersLikeGo` states about it is used: zero renders as "0s", and nothing else renders as a string `strings.EqualFold` matches to "0s".
- The error branch of `isDurationZero`, where `time.ParseDuration("0")` fails, cannot be taken, so it is not modelled.
- Nil pointers:
  - `Build.Command` dereferences the three sub-records, so it requires them (`Decoded()`).
  - `Global.Flags` dereferences `CPU` and `Log`, so it requires both (`Present()`).
  - The nil-pointer panics themselves are not modelled.
- Logging (`logrus`) and the debug `fmt.Println` in `Plugin.Unmarshal` are not modelled.
- config.go also redeclares `appFS`, `configFlags`, `globalFlags` and `globalDefaultValue`. These are not modelled.
- config.go's `configPath` ("/makisu/.docker/config.json") conflicts with registry.go's. Each module uses its own file's value.
- The test files use fields the implementation files lack (`ContextPath` on build, `Addr`, `DryRun`, a string TTL). The model follows the implementation files.

## Findings

| source | as written | input that shows it | evidently intended | confidence | as-written member | corrected member |
|---|---|---|---|---|---|---|
| cmd/vela-makisu/config.go:207 | the cpu-profile switch is appended as "--cpu-profile " with a trailing space, so the argument makisu receives is not its flag name | a global record whose `CPU.Profile` is true | the bare token "--cpu-profile", as the newer cmd/vela-makisu/global.go:71 emits it | not executed | Config.LegacyProfileMissing | Global.GlobalProfile |

The model keeps both revisions. `Config.Global.Flags` and
`Config.LegacyGlobalFlags` model config.go as written.
`Config.LegacyProfileMissing` shows that it never emits "--cpu-profile".
`Global.Global.Flags`, the corrected version, is the one `Plugin.Plugin.Exec`
uses. `Global.GlobalProfile` proves that it emits "--cpu-profile" exactly
when the profile is on.
