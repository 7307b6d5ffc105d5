# OAuth server argument pipeline and audit observer, in Dafny

This project models two parts of the reconciliation logic of the
cluster-authentication-operator and proves what they promise.

**Deployment synthesis** (`pkg/controllers/deployment/default_deployment.go`):

- **`maybeQuote`** is a shell-token escaper. It is proved against an independent POSIX word reader: the shell reads its output back as the original token.
- **`getServerArguments`** turns the `serverArguments` object of the observed configuration into an argument map. Each entry is a string list or a single string, and every value is escaped with `maybeQuote`.
- **`serverArgsToStringSlice`** renders the map as `--key=value` flags with the keys sorted.
- **`stringSliceToNewLinedString`** joins the flags with continuation separators. It is driven by the countdown closure `times`, which is modelled as a class with a mutable counter.
- **`getOAuthServerDeployment`** is a method on a `Deployment` class that changes the template in place, step by step:
  - the rollout hash over the sorted resource versions, written to both annotation levels;
  - the bootstrap-user marker;
  - the image placeholder;
  - the proxy environment;
  - the `${LOG_LEVEL}` and `${SERVER_ARGUMENTS}` placeholders;
  - the identity-provider volumes and mounts.

  The method is proved against a chain of functions on manifest values (`Annotated`, `Configured`, `Prepared`, `Mounted`, `WithServerArguments`, `Synthesized`).
- **`getLogLevel`** and **`proxyConfigToEnvVars`/`appendEnvVar`** are pure functions.

**Audit observer** (`pkg/controllers/configobservation/oauth/observe_audit.go`):

- `ObserveAudit` maps the cluster's audit profile onto the fixed audit options under `serverArguments`, or onto nothing for the profile `None`.
- It prunes every result to that path.
- It reports a change event when the current subtree differs from the audit options.

**How the inputs are represented:**

- The loosely typed configuration is a tagged value tree (`Unstructured.Value`). Maps are values, so the existing configuration is never modified by the observer.
- The lister's answer is an input (`Found(profile) | NotFound | Failed(reason)`).
- The recorded event is a boolean output.
- Go's map iteration order is left open: the loops pick the next key with `:|`, so every proof holds for every order.

Modules: `Results` (Option, Result), `Text` (byte-order sorting, join, replace), `Unstructured`, `ShellEscape`, `ServerArguments`, `Deployment`, `ObserveAudit`.

## Model

| member | source | states |
|---|---|---|
| ShellEscape.MaybeQuote | pkg/controllers/deployment/default_deployment.go:213-222 | the empty token becomes `''`; a non-empty token of safe characters is returned unchanged; any other token is wrapped in single quotes |
| ShellEscape.NeedsQuoting | pkg/controllers/deployment/default_deployment.go:206 | the definition of `shellEscapePattern.MatchString`: some character lies outside `[A-Za-z0-9_@%+=:,./-]`; its contract says the empty token never matches and any token with an apostrophe or a space does; `ShellEscape.ReadSafe` states what a non-matching token means to the shell |
| ShellEscape.MaybeQuoteRoundTrip | pkg/controllers/deployment/default_deployment.go:206-222 | for every token, a POSIX shell reads the output as exactly one word whose text is the token |
| ShellEscape.ReadSafe | pkg/controllers/deployment/default_deployment.go:206 | a token with no character outside `[A-Za-z0-9_@%+=:,./-]` reads back as itself without quotes |
| ShellEscape.ReadQuoteEscape | pkg/controllers/deployment/default_deployment.go:218 | inside single quotes, `'"'"'` reads as one apostrophe and the word stays inside single quotes |
| ShellEscape.ReadEscaped | pkg/controllers/deployment/default_deployment.go:218 | inside single quotes, a token with every apostrophe replaced reads back as the token |
| ShellEscape.MaybeQuoteApostrophe | pkg/controllers/deployment/default_deployment.go:217-219 | `it's` becomes `'it'"'"'s'` |
| Text.SortStrings | pkg/controllers/deployment/default_deployment.go:43 | the result is sorted in byte order and is a permutation of the input |
| Text.LeTotal | pkg/controllers/deployment/default_deployment.go:43 | any two strings are comparable in the order `sort.Strings` uses |
| Text.LeAntisymmetric | pkg/controllers/deployment/default_deployment.go:43 | strings that are each at most the other are equal |
| Text.LeTransitive | pkg/controllers/deployment/default_deployment.go:43 | the string order is transitive |
| Text.SortedUnique | pkg/controllers/deployment/default_deployment.go:161-165 | two sorted permutations of the same strings are equal, so sorting has one possible outcome |
| Text.SortIgnoresOrder | pkg/controllers/deployment/default_deployment.go:43 | permutations of the same strings sort to the same sequence |
| Text.Join | pkg/controllers/deployment/default_deployment.go:44 | the definition of `strings.Join`; its contract says no parts give `""` and the first part starts the text; `Text.JoinSnoc` and `ServerArguments.JoinedFlagsShape` state how further parts are added |
| Text.JoinSnoc | pkg/controllers/deployment/default_deployment.go:44 | joining one more part adds the separator and that part at the end |
| Text.Replace | pkg/controllers/deployment/default_deployment.go:75 | the definition of `strings.Replace` for a non-empty pattern; its contract says a zero budget, or a pattern replaced by itself, leaves the text unchanged; `Text.ReplaceSkips`, `Text.ReplaceHit` and `Text.ReplaceAbsent` state how occurrences are replaced |
| Text.ReplaceSkips | pkg/controllers/deployment/default_deployment.go:75 | a prefix that does not contain the pattern's first character is copied unchanged, and the replacement goes on over the rest with the same budget |
| Text.ReplaceAbsent | pkg/controllers/deployment/default_deployment.go:75 | a replacement leaves text without the pattern's first character unchanged |
| Text.ReplaceHit | pkg/controllers/deployment/default_deployment.go:99-104 | a leading occurrence is replaced and uses up one unit of a non-negative budget; a negative budget stays unlimited |
| ServerArguments.StringSlice | pkg/controllers/deployment/default_deployment.go:136 | it yields a list exactly when the value is a list of strings, and that list |
| ServerArguments.StrListInjective | pkg/controllers/deployment/default_deployment.go:136 | the same list value decodes from only one string list |
| ServerArguments.RawArgument | pkg/controllers/deployment/default_deployment.go:136-147 | a string list keeps its elements in order; a single string becomes a one-element list; any other value yields nothing |
| ServerArguments.EscapeValues | pkg/controllers/deployment/default_deployment.go:149-152 | every value is escaped with `MaybeQuote`, in order |
| ServerArguments.GetServerArguments | pkg/controllers/deployment/default_deployment.go:113-158 | succeeds iff `serverArguments` is absent, null, or an object of string lists and strings; on success each entry holds its escaped raw values; on failure the error names the non-object value or an offending key with its value |
| ServerArguments.SortedArgumentNames | pkg/controllers/deployment/default_deployment.go:161-165 | whatever order the map yields its keys in, the result is the sorted sequence of the argument names |
| ServerArguments.Flag | pkg/controllers/deployment/default_deployment.go:170 | the definition of one flag token; its contract lays the token out as `--`, the key, `=` and the value, so both can be read back; `ServerArguments.FlagsAreTheTokens` states which flags are emitted |
| ServerArguments.ServerArgsToStringSlice | pkg/controllers/deployment/default_deployment.go:160-175 | the flags are `--key=value` for the keys in sorted order and, per key, its values in stored order |
| ServerArguments.FlagsForAppend | pkg/controllers/deployment/default_deployment.go:168-172 | the flags of two key sequences are the flags of the first followed by those of the second |
| ServerArguments.FlagsFollowSortedKeys | pkg/controllers/deployment/default_deployment.go:165-172 | rendering over any sorted enumeration of the names gives the same flags |
| ServerArguments.FlagsOfEmpty | pkg/controllers/deployment/default_deployment.go:167-174 | an empty map renders no flags |
| ServerArguments.FlagsAreTheTokens | pkg/controllers/deployment/default_deployment.go:168-172 | every stored value appears as its `--key=value` flag, and every flag is such a token |
| ServerArguments.ValueCountPermutation | pkg/controllers/deployment/default_deployment.go:162-172 | the number of values under a set of keys does not depend on the order of the keys |
| ServerArguments.FlagsLength | pkg/controllers/deployment/default_deployment.go:160-175 | there are as many flags as stored values over all keys |
| ServerArguments.Countdown.constructor | pkg/controllers/deployment/default_deployment.go:194 | a fresh closure with counter `t` that has not been called yet |
| ServerArguments.Countdown.Next | pkg/controllers/deployment/default_deployment.go:195-202 | the call returns `s` on exactly the first `t` calls and `""` afterwards |
| ServerArguments.StringSliceToNewLinedString | pkg/controllers/deployment/default_deployment.go:177-191 | the flags joined by a space, a backslash and a newline |
| ServerArguments.JoinedFlagsShape | pkg/controllers/deployment/default_deployment.go:177-191 | no flags give `""`; otherwise the last flag ends the text with no separator after it |
| ServerArguments.GetServerArgumentsAsWritten | pkg/controllers/deployment/default_deployment.go:113-158 | as written, a successful extraction yields only the empty map |
| ServerArguments.AsWrittenNeverExtractsAnEntry | pkg/controllers/deployment/default_deployment.go:114-154 | as written, no configuration with a `serverArguments` entry is ever extracted |
| ServerArguments.IndexOutOfRangeExample | pkg/controllers/deployment/default_deployment.go:149-151 | as written, `{"scope": ["a"]}` panics at the index into a zero-length slice |
| ServerArguments.NilMapExample | pkg/controllers/deployment/default_deployment.go:154 | as written, `{"scope": []}` panics on the write into the nil map |
| Deployment.AppendEnvVar | pkg/controllers/deployment/default_deployment.go:266-271 | the variable is appended after the existing ones exactly when its value is non-empty |
| Deployment.ProxyConfigToEnvVars | pkg/controllers/deployment/default_deployment.go:258-264 | the proxy variables are NO_PROXY, HTTP_PROXY, HTTPS_PROXY in that order, without the empty ones (equal to the independent `NonEmpty` filter of the three) |
| Deployment.AppendEnvVarNonEmpty | pkg/controllers/deployment/default_deployment.go:266-271 | appending keeps every value of the list non-empty |
| Deployment.ProxyEnvVarsNeverEmpty | pkg/controllers/deployment/default_deployment.go:258-271 | at most three proxy variables, none with an empty value |
| Deployment.LogLevelVerbosity | pkg/controllers/deployment/default_deployment.go:242-255 | verbosity 0 exactly for a level that is not `""`, Normal, Debug, Trace or TraceAll |
| Deployment.LogLevelsIncrease | pkg/controllers/deployment/default_deployment.go:242-255 | the empty level means Normal, and Normal < Debug < Trace < TraceAll |
| Deployment.Deployment.constructor | pkg/controllers/deployment/default_deployment.go:38 | the deployment holds the template's annotations, volumes and first-container fields |
| Deployment.Deployment.Annotate | pkg/controllers/deployment/default_deployment.go:40-61 | the new state is the old one with the hash of the sorted, comma-joined versions on both annotation levels and, when the bootstrap user exists, the marker |
| Deployment.Deployment.ConfigureContainer | pkg/controllers/deployment/default_deployment.go:63-75 | the new state is the old one with `${IMAGE}` resolved, the proxy environment appended and `${LOG_LEVEL}` replaced by `5` everywhere in the first argument |
| Deployment.Deployment.Prepare | pkg/controllers/deployment/default_deployment.go:40-75 | the new state is the template with the hash of the sorted, comma-joined versions on both levels, the bootstrap marker, the resolved image, the proxy environment and the pinned log level |
| Deployment.GetOAuthServerDeployment | pkg/controllers/deployment/default_deployment.go:31-109 | uses the corrected extraction (`ServerArguments.GetServerArguments`; as written, line 90 panics for any non-empty `serverArguments`, which the audit observer fills for every profile but `None`); returns a deployment iff the IDP data transforms and the server arguments extract; each failure is reported with its own error; a returned deployment is newly allocated and is the synthesized manifest with the rendered flags in place of `${SERVER_ARGUMENTS}` |
| Deployment.RenderServerArguments | pkg/controllers/deployment/default_deployment.go:90-104 | succeeds iff the arguments extract, and then yields the sorted flags joined with continuation separators; the error is a faithful report otherwise |
| Deployment.RolloutHashOnBothLevels | pkg/controllers/deployment/default_deployment.go:48-56 | the same hash is written to the deployment's and the pod template's `rvs-hash` annotation; no other deployment annotation is added, lost or changed; the other template annotations are kept |
| Deployment.RolloutHashIgnoresOrder | pkg/controllers/deployment/default_deployment.go:43-44 | any permutation of the resource versions yields the same hash input |
| Deployment.BootstrapMarker | pkg/controllers/deployment/default_deployment.go:59-61 | the marker is `"true"` when the bootstrap user exists; otherwise the template's marker, if any, is kept as it is |
| Deployment.ImageResolved | pkg/controllers/deployment/default_deployment.go:67-69 | `${IMAGE}` becomes the server image; any other image is kept |
| Deployment.AppendedNeverReplaced | pkg/controllers/deployment/default_deployment.go:72-88 | the template's environment, volumes and mounts are kept as a prefix and the additions follow in order |
| Deployment.ServerArgumentsPlaceholderKept | pkg/controllers/deployment/default_deployment.go:75 | the log-level pass leaves `${SERVER_ARGUMENTS}` intact |
| Deployment.ReplaceSingleOccurrence | pkg/controllers/deployment/default_deployment.go:99-104 | only the one occurrence of the pattern changes |
| Deployment.ReplaceFirstOfTwo | pkg/controllers/deployment/default_deployment.go:75 | replacing one placeholder leaves a second, different placeholder after it alone |
| Deployment.LogLevelPass | pkg/controllers/deployment/default_deployment.go:75 | `${LOG_LEVEL}` becomes `5` and `${SERVER_ARGUMENTS}` stays |
| Deployment.ServerArgumentsPass | pkg/controllers/deployment/default_deployment.go:99-104 | the first `${SERVER_ARGUMENTS}` becomes the flag text |
| Deployment.ArgumentsRendered | pkg/controllers/deployment/default_deployment.go:75-104 | a template argument `a ${LOG_LEVEL} b ${SERVER_ARGUMENTS} c` becomes `a 5 b <flags> c`; the other arguments are untouched |
| Unstructured.SetNestedField | pkg/controllers/configobservation/oauth/observe_audit.go:57-61 | the path holds the new value and every other key is unchanged |
| Unstructured.Pruned | pkg/controllers/configobservation/oauth/observe_audit.go:37-39 | nothing outside the path remains, and the path's value is kept |
| Unstructured.PrunedIdempotent | pkg/controllers/configobservation/oauth/observe_audit.go:37-39 | pruning twice is pruning once |
| ObserveAudit.ObservedConfigFor | pkg/controllers/configobservation/oauth/observe_audit.go:54-69 | profile `None` gives no `serverArguments`; any other profile gives exactly the five audit options there |
| ObserveAudit.ObserveAudit | pkg/controllers/configobservation/oauth/observe_audit.go:32-89 | the result holds nothing outside `serverArguments`; there are errors iff the fetch failed; a failed fetch gives the pruned existing config, one error and no event; `None` gives the empty config; any other profile, or a missing resource, gives the audit options; the event fires iff the existing subtree differs from the audit options |
| ObserveAudit.SecondPassIsQuiet | pkg/controllers/configobservation/oauth/observe_audit.go:54-86 | for any profile but `None`, a pass over its own earlier result reports no change |
| ObserveAudit.SwitchToNoneIsQuiet | pkg/controllers/configobservation/oauth/observe_audit.go:54-86 | the pass that switches to `None` after another profile drops the subtree and reports no change, because the existing subtree still is the audit options |
| ObserveAudit.NoneProfileAlwaysReports | pkg/controllers/configobservation/oauth/observe_audit.go:54-86 | for profile `None`, a pass over its own earlier result still reports a change |
| ObserveAudit.ObserveAuditAsWritten | pkg/controllers/configobservation/oauth/observe_audit.go:44-55 | as written, the observer dereferences nil exactly when the resource is not found |
| ObserveAudit.NotFoundDereferencesNil | pkg/controllers/configobservation/oauth/observe_audit.go:44-55 | as written, a missing API server resource crashes the observer |

## Left out

- The rollout digest (SHA-512, then unpadded URL-safe base64, `default_deployment.go:46-47`) is the function parameter `digest`. Its properties are not modelled.
- The image taken from the `IMAGE_OAUTH_SERVER` environment variable (`default_deployment.go:68`) is the parameter `serverImage`.
- These are not modelled because they are I/O or logging with no behaviour to verify:
  - loading the bundled deployment asset (`default_deployment.go:38`); the template arrives decoded, as a `Manifest`;
  - all `klog` logging.
- `UnstructuredConfigFrom` and JSON/YAML decoding (`default_deployment.go:116-129,224-236`) are not modelled. The extractor starts from the decoded configuration tree, so the "failed to grab" and "failed to unmarshal the observedConfig" decode errors are not represented. The one structural decode failure that remains, a `serverArguments` that is not an object, is `UnmarshalFailed`.
- The key `serverArguments` is matched exactly. The struct decode at `default_deployment.go:124-127` also matches the field name case-insensitively, so a key such as `ServerArguments` with a non-object value makes the code fail, where the model ignores that key and succeeds with the empty map.
- `GetIDPConfigSyncData` and `ToVolumesAndMounts` are not part of this model. Their outcome is the input `IdpVolumes`: either the volumes and mounts, or one of the two errors.
- The lister, its type assertion and the event recorder (`observe_audit.go:41-44,80`) are an input variant and a boolean output. The text of the event is not modelled.
- `equality.Semantic.DeepEqual` is structural equality on `Value`. JSON numbers are integers; floating point is not modelled.
- The `SetNestedField` and `NestedFieldCopy` error returns (`observe_audit.go:61-68,75-77`) are unreachable on a path of one segment and are not modelled.
- A nil annotation map being replaced by an empty one (`default_deployment.go:48-50,53-55`) is not modelled as a separate step: a Dafny map is never nil, and an empty map is indistinguishable from it.
- Only the pod template's first container is modelled, as fields of `Deployment`.
  - Indexing `Containers[0]` and `Args[0]` panics on a template without them; the bundled template always has them.
  - This is the `|args| > 0` precondition.
- `sort.Strings` sorts the caller's variadic slice in place (`default_deployment.go:43`). The model sorts a copy, so it does not show the reordering seen by the caller.
- Strings are sequences of Unicode characters, and the sort order is code-point order, which agrees with Go's byte-wise order on valid UTF-8. Invalid UTF-8 is not modelled.
- `Text.Replace` models `strings.Replace` only for non-empty patterns. Every pattern in the core is a non-empty constant.
- The log level written into the arguments is the fixed `5`, as in the code (`default_deployment.go:75`). `getLogLevel` is modelled (`Deployment.LogLevelVerbosity`), but nothing uses it, as in the code.
- On error, `getOAuthServerDeployment` returns nil. The partly changed deployment is then unreachable, so the model returns `null` and states nothing about it.
- Two behaviours of the code a reader may not expect, which the model keeps:
  - A failed fetch returns `Pruned(existingConfig)`, not `existingConfig` itself: the deferred prune (`observe_audit.go:37-39`) also runs on the early return at `observe_audit.go:48`.
  - The event at `observe_audit.go:79` compares with `auditOptionsArgs`, not with the new subtree. So with profile `None`, a pass reports a change whenever the existing subtree is not the audit options. That is every pass over its own earlier result (`ObserveAudit.NoneProfileAlwaysReports`), while the pass that switches to `None` from another profile reports none (`ObserveAudit.SwitchToNoneIsQuiet`). For every other profile, a pass over its own earlier result is quiet (`ObserveAudit.SecondPassIsQuiet`).
- ServerArguments.GetServerArguments: when several entries are malformed, the model reports whichever the map order reaches first, as Go does. Which one that is stays unspecified.

## Findings

| source | as written | input that shows it | evidently intended | confidence | as-written member | corrected member |
|---|---|---|---|---|---|---|
| pkg/controllers/deployment/default_deployment.go:114-154 | `args` is declared but never allocated, so `args[argName] = …` writes into a nil map | `{"serverArguments": {"scope": []}}` | allocate the map, then store each entry's escaped values | not executed | ServerArguments.NilMapExample | ServerArguments.GetServerArguments |
| pkg/controllers/deployment/default_deployment.go:149-151 | `escapedArgsSlice` is made with length 0, so `escapedArgsSlice[i]` is out of range for the first value | `{"serverArguments": {"scope": ["a"]}}` | append each escaped value (or make the slice with length `len(argsSlice)`) | not executed | ServerArguments.IndexOutOfRangeExample | ServerArguments.GetServerArguments |
| pkg/controllers/configobservation/oauth/observe_audit.go:44-55 | on NotFound the code only logs, then reads `apiServer.Spec` through the nil `apiServer` | the lister answers NotFound for `cluster` | treat the missing resource as the zero-value profile `""`, which sets the audit options | not executed | ObserveAudit.NotFoundDereferencesNil | ObserveAudit.ObserveAudit |
