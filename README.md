# Firebase CLI helpers: extension warnings, App Distribution guards, function source writers

This project models, in Dafny, the small deterministic logic of several parts of the Firebase
command-line tools and proves what each part promises.

- **Extension billing notices** (`src/extensions/billingMigrationHelper.ts`):
  - whether an extension spec runs on a given Node.js runtime, with the spec-version and
    per-resource defaults;
  - when the Node.js 10 update and create notices are shown;
  - when the user is asked to confirm, and the `Cancelled.` error with exit code 2.
- **Extension registry** (`src/extensions/resolveSource.ts`):
  - the featured-only filter of the registry;
  - the trusted-publisher list: de-duplicated, with `["firebase"]` as the
    fallback when the registry cannot be fetched.
- **Extension warnings** (`src/extensions/warnings.ts`):
  - the choice between the Early Access Program (EAP) warning, the experimental warning and
    no warning at install time;
  - how a deployment's instances are split into EAP and experimental lists, and the function's
    boolean result;
  - the publisher link and the per-instance list entries.
- **App Distribution client** (`src/appdistribution/client.ts`):
  - the guards that skip a request (no testers and no groups; empty release notes);
  - the request each call sends;
  - the mapping from a failed request to the `FirebaseError` the client throws.
- **Function source writers for the deploy tests** (`scripts/functions-deploy-tests/sourceWriter`):
  - the `.runWith(...)` segment, whose options serialisation keeps `undefined` values visible;
  - the v1 fragments (https, storage, task queue, Firestore, Realtime Database) and their
    `asString` text;
  - the module files and the `index.js` that `write` produces;
  - the older string generators of `writeFn.ts`.

Effects are inputs or outputs of the model:
- a fetched registry body or its failure, a server reply or a request error, and the user's
  answer to a prompt are parameters;
- the text that the billing notices and the extension warnings log is returned as a value;
- a request is returned as the request value that would be sent;
- a file write is returned as a `FileWrite` record.

A JavaScript object with string keys is a sequence of named items in `Object.entries` order.
JSON serialisation is modelled for flat option objects: keys are quoted as they are, and each
defined value is given by its JSON text.

Modules, one per source file, plus shared helpers:
- `Wrappers` and `Errors` (`wrappers.dfy`): Option, Result, JavaScript truthiness of an
  optional string, and the `FirebaseError` value.
- `Strings` (`strings.dfy`): `join`, one-character `split`, and global literal replacement,
  with their lemmas.
- `Sequences` (`sequences.dfy`): `filter`, `partition` and `map`.
- `BillingMigrationHelper`, `ResolveSource`, `Warnings`, `AppDistributionClient`.
- `SourceWriterCommon`, `V1Https`, `V1Storage`, `V1Tasks`, `V1Firestore`, `V1Database`,
  `SourceWriterIndex`, `WriteFn`.

## Model

| member | source | states |
|---|---|---|
| BillingMigrationHelper.SomeHasRuntime | src/extensions/billingMigrationHelper.ts:65 | `resources.some(...)` is true iff some resource's effective runtime (explicit non-empty runtime, else the default) equals the one asked for |
| BillingMigrationHelper.HasRuntime | src/extensions/billingMigrationHelper.ts:61-66 | `hasRuntime(spec, runtime)` is true iff some resource of `spec.resources \|\| []` has that effective runtime, with the default taken from the spec version (`v1beta` when absent) |
| BillingMigrationHelper.NoResourcesNoRuntime | src/extensions/billingMigrationHelper.ts:64-65 | a spec with absent or empty `resources` has no runtime at all |
| BillingMigrationHelper.ImplicitRuntimeIsNode8 | src/extensions/billingMigrationHelper.ts:56-65 | with no spec version or `v1beta`, a resource without an explicit runtime makes the spec run on `nodejs8` |
| BillingMigrationHelper.UnknownSpecVersionHasNoDefault | src/extensions/billingMigrationHelper.ts:62-65 | for a spec version missing from the default table, resources without explicit runtimes match no runtime |
| BillingMigrationHelper.EmptyRuntimeUsesDefault | src/extensions/billingMigrationHelper.ts:65 | an empty-string runtime, an absent runtime and absent properties all fall back to the default |
| BillingMigrationHelper.HasRuntimeMonotone | src/extensions/billingMigrationHelper.ts:65 | adding resources never turns a present runtime into an absent one |
| BillingMigrationHelper.UpdateBillingNotice | src/extensions/billingMigrationHelper.ts:74-81 | the update notice is logged iff the current spec has `nodejs8` and the new one `nodejs10`, and it is the update billing message |
| BillingMigrationHelper.CreateBillingNotice | src/extensions/billingMigrationHelper.ts:89-106 | the create notice is logged iff the spec has `nodejs10`; confirmation is asked iff also `prompt`; the call fails iff asked and declined, with `Cancelled.` and exit 2 |
| ResolveSource.FeaturedOnly | src/extensions/resolveSource.ts:50-57 | the featured filter keeps exactly the items whose name is featured, unchanged; its names are the registry's names intersected with the featured names |
| ResolveSource.GetExtensionRegistry | src/extensions/resolveSource.ts:39-60 | missing `mods` gives an empty registry; without `onlyFeatured` the registry is returned unchanged; with it, the loop's result is the featured filter, so absent or unknown featured names keep nothing |
| ResolveSource.FeaturedOnlyKeepsNamesUnique | src/extensions/resolveSource.ts:51-57 | filtering a registry whose keys are unique leaves them unique |
| ResolveSource.Dedup | src/extensions/resolveSource.ts:75-81 | `Array.from(new Set(s))` has no duplicates and holds exactly the values of `s` |
| ResolveSource.TrustedPublishers | src/extensions/resolveSource.ts:65-82 | a failed fetch gives exactly `["firebase"]`; otherwise the loop yields each registry publisher once, and nothing else; an empty registry gives `[]`, not the fallback |
| Warnings.PublisherNameLink | src/extensions/warnings.ts:47 | the publisher is written as `[id](link)` when the spec has a non-empty source URL, else as the bare id |
| Warnings.PublisherShownBareIffNoLink | src/extensions/warnings.ts:47 | the publisher text equals the bare id iff there is no link |
| Warnings.WarningPrompt | src/extensions/warnings.ts:69-87 | an untrusted publisher always gets the EAP warning, with its link and the version's download URI; a trusted one gets the experimental warning iff the stage is experimental, else none |
| Warnings.ListEntryLines | src/extensions/warnings.ts:89-96 | `ListEntry`: a list entry is the instance line and the source-code line, plus the publisher-contact line iff the spec has a source URL |
| Warnings.Classify | src/extensions/warnings.ts:105-117 | only instances with a `ref` are classified; EAP and non-EAP together are exactly those instances; every EAP instance is untrusted and every non-EAP instance trusted, and every untrusted one is EAP; experimental ones are drawn from the non-EAP part only, so no instance is in both lists; the experimental list is exactly the experimental non-EAP instances, in order |
| Warnings.ClassifyFindsExperimental | src/extensions/warnings.ts:114-117 | every trusted, experimental instance with a `ref` is in the experimental list |
| Warnings.WarningsForDeploy | src/extensions/warnings.ts:103-145 | the experimental list is logged iff some trusted instance with a `ref` is experimental; the EAP list iff some instance with a `ref` is untrusted; the result is true iff either list is logged |
| Warnings.LocalInstancesNeverWarn | src/extensions/warnings.ts:103-145 | adding local-source instances (no `ref`) never changes whether the deploy warns |
| Sequences.Filter | src/extensions/warnings.ts:105-117 | `filter` keeps exactly the elements that satisfy the predicate: each kept element is in the input and satisfies it, and each such element of the input is kept |
| Sequences.FilterAppend | src/extensions/warnings.ts:105-117 | `filter` keeps order: filtering a concatenation is filtering each part and concatenating, and one element is kept iff it satisfies the predicate |
| Sequences.Partition | src/extensions/warnings.ts:110-113 | `partition` puts each element in the first part iff it satisfies the predicate, and together the parts are a permutation of the input |
| AppDistributionClient.DistributeErrorReason | src/appdistribution/client.ts:172-178 | status `FAILED_PRECONDITION` reads `invalid testers`, `INVALID_ARGUMENT` reads `invalid groups`, any other keeps the error's message |
| AppDistributionClient.Distribute | src/appdistribution/client.ts:152-185 | no request and success iff both lists are empty; otherwise a POST to `/<release>:distribute` carrying both lists unchanged, and a failure becomes the prefixed reason with exit 1 |
| AppDistributionClient.DistributeErrorNamesReason | src/appdistribution/client.ts:179-181 | a failed distribution's message is the fixed prefix followed by the reason, which can be read back, and its exit code is 1 |
| AppDistributionClient.UpdateReleaseNotes | src/appdistribution/client.ts:127-150 | empty notes send nothing and succeed; otherwise a PATCH of `{name, releaseNotes: {text}}` with update mask `release_notes.text`, and a failure becomes `failed to update release notes with <message>` |
| AppDistributionClient.AddTesters | src/appdistribution/client.ts:187-199 | always a POST to `<project>/testers:batchAdd` with the emails; a failure becomes `Failed to add testers <error>` |
| AppDistributionClient.RemoveTesters | src/appdistribution/client.ts:201-216 | always a POST to `<project>/testers:batchRemove` with the emails; the reply body is returned as it is, and a failure becomes `Failed to remove testers <error>` |
| AppDistributionClient.FailuresNameTheOperation | src/appdistribution/client.ts:143-214 | every failure message starts with the prefix of its operation |
| SourceWriterCommon.MaybeRunWithShape | scripts/functions-deploy-tests/sourceWriter/common.ts:6-18 | `MaybeRunWith`: the segment is empty iff there are no options; otherwise it is `.runWith(`, an object literal, and `)` |
| SourceWriterCommon.RunWithShowsUndefined | scripts/functions-deploy-tests/sourceWriter/common.ts:8-15 | for options with plain keys and values, the segment is `.runWith(` + the object with each undefined value written as a bare `undefined` + `)`, so no quoted marker is left |
| SourceWriterCommon.MembersReplaced | scripts/functions-deploy-tests/sourceWriter/common.ts:11-14 | replacing every quoted marker in the serialised members turns each marked value into `undefined` and copies the rest |
| SourceWriterCommon.UndefinedKeyKept | scripts/functions-deploy-tests/sourceWriter/common.ts:11 | a key whose value is undefined is kept, as the member `"key":undefined` after the others |
| SourceWriterCommon.StringifyDropsUndefined | scripts/functions-deploy-tests/sourceWriter/v1/tasks.ts:21 | plain `JSON.stringify` drops a property whose value is undefined, wherever it sits, and keeps the others in order |
| SourceWriterCommon.RunWithPresentIffOptions | scripts/functions-deploy-tests/sourceWriter/common.ts:6-18 | followed by a trigger segment, the text starts with `.runWith(` iff options are given |
| V1Https.OnCall | scripts/functions-deploy-tests/sourceWriter/v1/https.ts:11-18 | the callable fragment keeps its options; its text starts with `functions`, has a runWith segment iff options are given, and ends with `.https.onCall(() => {});` |
| V1Https.OnRequest | scripts/functions-deploy-tests/sourceWriter/v1/https.ts:23-30 | the request fragment keeps its options; its text starts with `functions`, has a runWith segment iff options are given, and ends with `.https.onRequest(() => {});` |
| V1Https.CallAndRequestDiffer | scripts/functions-deploy-tests/sourceWriter/v1/https.ts:11-30 | with the same options, a callable and a request fragment never write the same text |
| V1Https.AsStringShape | scripts/functions-deploy-tests/sourceWriter/v1/https.ts:11-30 | `AsString`: the text is `functions`, a runWith segment iff the fragment has options, then the trigger |
| V1Https.NoOptionsNoRunWith | scripts/functions-deploy-tests/sourceWriter/v1/https.ts:11-30 | without options `.runWith(` occurs nowhere in the text |
| V1Https.AsStringReadsCurrentOptions | scripts/functions-deploy-tests/sourceWriter/v1/https.ts:11-30 | the text follows the fragment's current options, as if they had been given to the factory |
| V1Storage.MaybeBucket | scripts/functions-deploy-tests/sourceWriter/v1/storage.ts:9-14 | empty iff the bucket is absent or empty; otherwise `.bucket(` + the bucket, unquoted + `)` |
| V1Storage.OnFinalize | scripts/functions-deploy-tests/sourceWriter/v1/storage.ts:19-28 | the fragment keeps the bucket and the options; its text has a runWith segment iff options are given and ends with the bucket segment and `.object().onFinalize(() => {});` |
| V1Storage.AsStringShape | scripts/functions-deploy-tests/sourceWriter/v1/storage.ts:24-26 | `AsString`: the text is `functions`, a runWith segment iff there are options, `.storage`, the bucket segment, and it ends with the finalize handler |
| V1Storage.BucketRecoverable | scripts/functions-deploy-tests/sourceWriter/v1/storage.ts:9-28 | the bucket is present iff `.bucket` follows `.storage`, and its name can be read back from the text |
| V1Tasks.OnDispatch | scripts/functions-deploy-tests/sourceWriter/v1/tasks.ts:12-24 | runtime options, given first, decide the runWith segment (present iff given); queue options, given second, fill the queue segment that precedes `.onDispatch(() => {});` at the end |
| V1Tasks.TaskQueueSegmentShape | scripts/functions-deploy-tests/sourceWriter/v1/tasks.ts:20-22 | `TaskQueueSegment`: the queue segment is exactly `.tasks.taskQueue()` without queue options; with them, their plain serialisation sits between the parentheses |
| V1Tasks.AsStringShape | scripts/functions-deploy-tests/sourceWriter/v1/tasks.ts:20-22 | `AsString`: the text is `functions`, a runWith segment iff there are runtime options, the queue segment and the dispatch handler |
| V1Tasks.QueueOptionsDropUndefined | scripts/functions-deploy-tests/sourceWriter/v1/tasks.ts:21 | unlike the runWith segment, the queue segment drops a key whose value is undefined, wherever it sits |
| V1Firestore.OnWrite | scripts/functions-deploy-tests/sourceWriter/v1/firestore.ts:12-21 | the fragment's text has a runWith segment iff options are given, ends with `").onWrite(() => {});`, and gives the document path back |
| V1Firestore.AsStringShape | scripts/functions-deploy-tests/sourceWriter/v1/firestore.ts:17-19 | `AsString`: `functions`, a runWith segment iff there are options, then the path verbatim between `.firestore.document("` and `").onWrite(() => {});` |
| V1Firestore.PathRoundTrip | scripts/functions-deploy-tests/sourceWriter/v1/firestore.ts:17-19 | the path can be read back from the text, so fragments with equal options and different paths write different text |
| V1Database.OnWrite | scripts/functions-deploy-tests/sourceWriter/v1/database.ts:12-21 | the fragment's text has a runWith segment iff options are given, ends with `").onWrite(() => {});`, and gives the node path back |
| V1Database.AsStringShape | scripts/functions-deploy-tests/sourceWriter/v1/database.ts:17-19 | `AsString`: `functions`, a runWith segment iff there are options, then the path verbatim between `.database.ref("` and `").onWrite(() => {});` |
| V1Database.PathRoundTrip | scripts/functions-deploy-tests/sourceWriter/v1/database.ts:17-19 | the path can be read back from the text, so fragments with equal options and different paths write different text |
| SourceWriterIndex.ModuleWrites | scripts/functions-deploy-tests/sourceWriter/index.ts:9-15 | one module write per prefix |
| SourceWriterIndex.ModuleWritesInOrder | scripts/functions-deploy-tests/sourceWriter/index.ts:9-15 | the k-th module write is the file of the k-th prefix |
| SourceWriterIndex.Write | scripts/functions-deploy-tests/sourceWriter/index.ts:8-23 | the loop writes one module file per prefix in key order, then `index.js` last; with no prefixes, only an empty `index.js` |
| SourceWriterIndex.WritesInOrder | scripts/functions-deploy-tests/sourceWriter/index.ts:8-23 | the k-th write is `<prefix>.js` of the k-th prefix in `fpath` with its module content, and the last is `index.js` in `fpath` |
| SourceWriterIndex.PrefixFileLines | scripts/functions-deploy-tests/sourceWriter/index.ts:10-14 | `PrefixFileContent`: a module file splits into the import header and then exactly one export line (`ExportLine`) per fragment, in entry order, with no trailing newline |
| SourceWriterIndex.EmptyPrefixFile | scripts/functions-deploy-tests/sourceWriter/index.ts:10-14 | `PrefixFileContent`: a prefix without fragments still gets the header and a newline |
| SourceWriterIndex.IndexFileLines | scripts/functions-deploy-tests/sourceWriter/index.ts:17-22 | `IndexContent`: `index.js` splits into exactly one `export * as <p> from "./<p>.js";` line per prefix, in key order |
| WriteFn.MaybeRunWith | scripts/functions-deploy-tests/sourceWriter/writeFn.ts:3-8 | empty iff no options; otherwise `.runWith(`, `[object Object]`, and a closing brace, with no `)` at all |
| WriteFn.RunWithUnclosed | scripts/functions-deploy-tests/sourceWriter/writeFn.ts:5 | the segment opens one parenthesis and closes none |
| WriteFn.MaybeRunWithClosed | scripts/functions-deploy-tests/sourceWriter/writeFn.ts:3-8 | corrected: empty iff no options; otherwise `.runWith(`, `[object Object]`, and `)` |
| WriteFn.RunWithBalanced | scripts/functions-deploy-tests/sourceWriter/writeFn.ts:5 | the corrected segment closes the one parenthesis it opens |
| WriteFn.Exprt | scripts/functions-deploy-tests/sourceWriter/writeFn.ts:10-12 | `export const ` followed by the id, which can be read back |
| WriteFn.HttpsOnCall | scripts/functions-deploy-tests/sourceWriter/writeFn.ts:17-19 | the line is the export of `id`, then `=functions`, then exactly the runWith segment as written (`WriteFn.MaybeRunWith`, so `.runWith(` starts there iff options are given), then `.https.onCall(() => {});` |
| WriteFn.QueueText | scripts/functions-deploy-tests/sourceWriter/writeFn.ts:29-31 | `${tqOpts \|\| ""}` is empty iff there are no queue options, else `[object Object]` |
| WriteFn.TqOnDispatch | scripts/functions-deploy-tests/sourceWriter/writeFn.ts:24-32 | the line is the export of `id`, then `=functions`, then exactly the runWith segment as written for the runtime options (present iff they are given), then the queue segment around the queue options' text and the dispatch handler |
| WriteFn.HttpsOnCallAgreesWithoutOptions | scripts/functions-deploy-tests/sourceWriter/writeFn.ts:17-19 | without options `httpsOnCall` writes the same line as the module writer writes for an `onCall()` fragment |
| WriteFn.HttpsOnCallDiffersWithOptions | scripts/functions-deploy-tests/sourceWriter/writeFn.ts:3-19 | with options the two writers part: the module writer serialises the object (`{`), this one writes `[object Object]` |
| WriteFn.TqOnDispatchAgreesWithoutOptions | scripts/functions-deploy-tests/sourceWriter/writeFn.ts:29-31 | without options `tqOnDispatch` writes the same line as the module writer writes for an `onDispatch()` fragment |

## Findings

| source | as written | input that shows it | evidently intended | confidence | as-written member | corrected member |
|---|---|---|---|---|---|---|
| scripts/functions-deploy-tests/sourceWriter/writeFn.ts:5 | the runWith segment is closed with `}`, so `.runWith(` is never closed | any options object, e.g. `{}`, gives `.runWith([object Object]}` | close the call with `)`, as sourceWriter/common.ts:15 does | high; not executed | WriteFn.RunWithUnclosed | WriteFn.RunWithBalanced |

## Left out

- The emulator work queue: its implementation is not part of this model.
- Network and REST calls: the registry fetch, the App Distribution requests, and operation polling. Replies and failures are parameters instead.
- `getAabInfo`, `uploadRelease` and `pollUploadStatus` of the App Distribution client: each is a single REST call or poll with no local logic.
- Logging, `marked` and `cli-color` rendering, and `printSourceDownloadLink`: for the billing notices and the extension warnings, the model returns the message text or its parts instead.
- The App Distribution client's log lines (the `logWarning` lines for skipped release notes and for no testers or groups, and the `logBullet`/`logSuccess` progress messages of `src/appdistribution/client.ts`): they are dropped. The model returns only the request and the outcome.
- The registry's `logger.debug` line in `getTrustedPublishers`, logged when the fetch fails: it is dropped, because it changes no result.
- The experimental-warning text of `displayExperimentalWarning` and the header text of the deploy warnings: these are terminal formatting only. The model keeps which warning is shown and the list entries.
- The confirmation prompt: the user's answer is a parameter.
- Warnings.WarningsForDeploy: the sequential `getExtension` loop is network I/O. The launch stage it fetches is part of each instance's input. `humanReadable` is also an input: the instance's `summary`.
- `paramsFlagDeprecationWarning`: it only logs a constant message.
- The `authOnCreate` overload declaration at the end of `writeFn.ts`: it has no body.
- `FirebaseError`'s default exit code: an error thrown without one has exit `None` here.
- File writes of `sourceWriter/index.ts`: they are returned as `FileWrite` records, in order. `path.join` is not modelled; the record keeps the directory and the file name apart.
- `JSON.stringify` of nested values, string escaping, numbers: a defined value is given by its JSON text. Keys are written as they are.
- SourceWriterCommon.RunWithShowsUndefined: "no quoted marker remains" is proved for options with plain keys and values only. For arbitrary text, a global replace can leave a marker behind (for example `"__"__undefined""`), and serialised options never contain such text.
- `V1Fragment` and the `Fragment` interface: the five v1 fragment kinds are one sum type, `SourceWriterIndex.Fragment`, whose `AsString` dispatches to the kind's text.
