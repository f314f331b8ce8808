# Quarto: RS Connect publishing, application directories, parallel test buckets

A Dafny model of three pieces of Quarto:

- **The RStudio Connect publish provider** (`src/publish/rsconnect/rsconnect.ts`) covers
  - the list of account tokens, built from `CONNECT_SERVER` / `CONNECT_API_KEY` and the stored accounts;
  - token removal;
  - the classification of API errors by HTTP status;
  - the two-phase interactive authorization (a server, then an API key);
  - content creation that retries on name conflicts;
  - the publish sequence: resolve the content, render, then upload, deploy and poll the task inside a temporary workspace that is cleaned up in `finally`.

  The prompts and the API client are inputs. Each prompt round, creation attempt and status poll takes its answer from a finite scripted sequence (`ServerEntry`, `KeyEntry`, `CreateAttempt`, `PublishScript`). When a loop's script runs out, the outcome is `Unfinished`: the source would still be prompting, retrying or polling. `Publish` also returns the trace of calls it makes (`Event`), and the workspace properties are stated over that trace.
- **Per-OS application directories** (`src/core/appdirs.ts`) are pure path selection from the operating system, an environment map, the application name, the roaming flag and an optional sub-directory. A path is a sequence of non-empty segments. `Join` drops empty parts, as the path library's `join` does for `""` among other parts. On Linux the model is checked against `XdgBaseDirectory`, which states the lookup rule the code follows: the variable when it is set and non-empty, else its default below `$HOME`.
- **Greedy test-bucket scheduling** (`tests/run-parallel-tests.ts`) covers three steps:
  - the pairwise parse of the timing file;
  - `argmin`, which returns the first minimum;
  - list scheduling, which appends each timed test to the least-loaded bucket in place.

  The scheduler is proved against a specification function (`PlanFor`), and the partition, order and load lemmas are proved about that function. The JavaScript string operations the parser uses (`trim`, `replaceAll(/ +/g, " ")`, `split`) are modelled in `JsStrings`.

Files:
- `options.dfy`: the `Option` type.
- `appdirs.dfy`: module `AppDirs`.
- `js_strings.dfy`: module `JsStrings`.
- `parallel_tests.dfy`: module `ParallelTests`.
- `rsconnect.dfy`: module `RSConnect`.

Three behaviours of the code worth knowing:
- An empty answer at either prompt ends publishing by throwing a bare `new Error()` (`rsconnect.ts:125` and `rsconnect.ts:169`). `authorizeToken` is declared to return `Promise<AccountToken | undefined>` (`rsconnect.ts:113`), but no path returns `undefined`. The model gives `Raised(EmptyInput)`.
- Rendering runs before the temporary workspace is created (`rsconnect.ts:250-253`), so a render failure has nothing to clean up.
- `removeToken` matches stored records on the username (`rsconnect.ts:107`), while the upsert after authorization matches them on the server (`rsconnect.ts:185`).

## Model

| member | source | states |
|---|---|---|
| RSConnect.IsUnauthorized | src/publish/rsconnect/rsconnect.ts:290-292 | definition (no contract of its own): an API error with status 401; `Classify` relates it to the other classes |
| RSConnect.IsConflict | src/publish/rsconnect/rsconnect.ts:294-296 | definition (no contract of its own): an API error with status 409 |
| RSConnect.IsNotFound | src/publish/rsconnect/rsconnect.ts:298-301 | definition (no contract of its own): an API error with status 404 |
| RSConnect.Classify | src/publish/rsconnect/rsconnect.ts:290-301 | an error is Unauthorized, Conflict or NotFound exactly when it is an API error with status 401, 409 or 404 respectively |
| RSConnect.ClassesAreExclusive | src/publish/rsconnect/rsconnect.ts:290-301 | no error is in two of the three classes |
| RSConnect.AccountTokens | src/publish/rsconnect/rsconnect.ts:73-100 | an Environment token named CONNECT_API_KEY comes first exactly when both variables are set and non-empty; then one Authorized token per stored record, in stored order, with name, server and token taken from username, server and key; the length is the sum of the two |
| RSConnect.KeepOthersCount | src/publish/rsconnect/rsconnect.ts:105-109 | the filter keeps each record as many times as it is stored, unless its username is the removed name, in which case it keeps none |
| RSConnect.KeepOthersCounts | src/publish/rsconnect/rsconnect.ts:105-109 | the count statement above, for every record at once |
| RSConnect.KeepOthersConcat | src/publish/rsconnect/rsconnect.ts:105-109 | filtering commutes with concatenation, so the kept records keep their relative order |
| RSConnect.RemoveToken | src/publish/rsconnect/rsconnect.ts:102-111 | the written list holds exactly the stored records whose username differs from the token's name, with their multiplicities; it is empty when nothing is stored |
| RSConnect.RemoveTokenIdempotent | src/publish/rsconnect/rsconnect.ts:102-111 | removing the same token a second time writes the same list again |
| RSConnect.RemovedTokenNotListed | src/publish/rsconnect/rsconnect.ts:89-111 | after removal no remaining record lists as a token with the removed name, and every record with another username remains |
| RSConnect.ServerRound | src/publish/rsconnect/rsconnect.ts:119-158 | a server round is never fatal; it cancels exactly on an empty answer; it accepts exactly a non-empty answer that is an http(s) URL whose probe succeeds or is refused with 401, and it accepts that URL; every other answer is asked again |
| RSConnect.KeyRound | src/publish/rsconnect/rsconnect.ts:163-207 | a key round cancels exactly on an empty key; it asks again exactly for a viewer's key or a 401; a fatal round carries the call's own error, which is not a 401 |
| RSConnect.KeyRoundNeverAcceptsViewer | src/publish/rsconnect/rsconnect.ts:171-198 | a key round accepts only a user whose lookup succeeded with a role other than viewer, and accepts that user |
| RSConnect.PromptServer | src/publish/rsconnect/rsconnect.ts:116-159 | every round before the last asked again, because of an invalid URL or a probe failure other than 401; the loop ends at the first round whose probe succeeds or is refused with 401, giving that URL, or at an empty answer, which raises; when the answers run out every round asked again |
| RSConnect.PromptApiKey | src/publish/rsconnect/rsconnect.ts:162-208 | every round before the last was a viewer's key or a 401; the loop ends at the first non-viewer user, at an empty key (raises), or at any other failure (rethrown); when the keys run out every round asked again |
| RSConnect.AuthorizeToken | src/publish/rsconnect/rsconnect.ts:113-209 | the key is asked for only after a server was accepted; success returns an Authorized token for a non-viewer user with that server and key, and persists exactly {username, server, key}; nothing is persisted otherwise; every raised error is an empty answer or a non-401 failure of the key phase; running out of answers means either every server answer was asked again and no key was asked, or a server was accepted and every key answer was asked again |
| RSConnect.ContentNameInjective | src/publish/rsconnect/rsconnect.ts:307-309 | two attempts with different suffixes try different names |
| RSConnect.CreatePasses | src/publish/rsconnect/rsconnect.ts:308-317 | the number of passes the creation loop makes: at most one per attempt; every pass before the last was a conflict; the last pass is not a conflict, or every attempt was used and all conflicted |
| RSConnect.CreatePassesUnique | src/publish/rsconnect/rsconnect.ts:308-317 | any pass count that meets those exit conditions is the one `CreatePasses` gives |
| RSConnect.CreateCalls | src/publish/rsconnect/rsconnect.ts:309-311 | one createContent call per pass, pass i with the name baseName-suffix_i |
| RSConnect.CreateContent | src/publish/rsconnect/rsconnect.ts:303-318 | attempt i uses the name baseName-suffix_i; all attempts before the last were conflicts; the first success is returned; the first non-conflict failure is raised as it is; the pass count and outcome are `CreatePasses` and `CreateOutcome` |
| RSConnect.CreateOutcomeCases | src/publish/rsconnect/rsconnect.ts:308-317 | creation ends with Done(c) exactly when the deciding reply is Ok(c), raises Call(f) exactly when it is a failure f that is not a conflict, raises nothing else, and is unfinished exactly when every reply is a conflict |
| RSConnect.ResolveContent | src/publish/rsconnect/rsconnect.ts:236-245 | with a target: exactly one getContent(target.id) call, and the outcome is the fetched content with the target, or the fetch error; without one: the calls are the creation passes, and the outcome is the created content with its new record {guid, content_url, code: false}, the creation error, or unfinished, as `CreateContent` ends |
| RSConnect.ResolveCallsKinds | src/publish/rsconnect/rsconnect.ts:236-245 | with a target resolution calls exactly getContent(target.id); without one it only creates |
| RSConnect.Polls | src/publish/rsconnect/rsconnect.ts:270-281 | the number of status polls: at most one per status; every poll before the last reported an unfinished task; the last one failed or reported a finished task, or every status was used and all were unfinished |
| RSConnect.PollsUnique | src/publish/rsconnect/rsconnect.ts:270-281 | any poll count that meets those exit conditions is the one `Polls` gives |
| RSConnect.PollTask | src/publish/rsconnect/rsconnect.ts:270-281 | every poll before the last reported an unfinished task; the loop ends only at a finished status (code 0 is success, any other code raises an error carrying the code and the status message) or at a failing call; the poll count and outcome are `Polls` and `PollOutcome` |
| RSConnect.PollOutcomeCases | src/publish/rsconnect/rsconnect.ts:270-281 | polling succeeds exactly when the last poll is a finished status with code 0; it raises the publish error with code c and message m exactly when the last poll is a finished status with c != 0 and message m; it raises Call(f) exactly when the last poll failed with f; it is unfinished exactly when every status is unfinished |
| RSConnect.StatusCalls | src/publish/rsconnect/rsconnect.ts:271 | n calls, each getTaskStatus on the same task |
| RSConnect.UploadAndDeploy | src/publish/rsconnect/rsconnect.ts:255-282 | the outcome is the upload failure, else the deployment failure, else what polling decides, where success gives the target with the content's dashboard URL; the calls are uploadBundle(target.id), then deployBundle(the uploaded bundle) if the upload succeeded, then one getTaskStatus(the deployment task) per poll if the deployment succeeded; upload is first and no other kind of call is made |
| RSConnect.DeployCallsKinds | src/publish/rsconnect/rsconnect.ts:255-282 | the calls of the workspace body start with the upload and are only upload, deploy and status calls |
| RSConnect.InWorkspace | src/publish/rsconnect/rsconnect.ts:253-287 | the outcome is that of the workspace body, and the events are the workspace creation, the body's calls, and the cleanup unless still polling |
| RSConnect.WorkspaceCleanedUp | src/publish/rsconnect/rsconnect.ts:253-287 | the workspace is created once and first; it is cleaned up exactly once, as the last event, on every outcome except still polling, and not at all then; no fetch, creation or render happens inside it |
| RSConnect.RenderThenDeploy | src/publish/rsconnect/rsconnect.ts:248-287 | the outcome is the render failure, else the workspace outcome; the events are render(target.url), then the workspace events unless the render failed |
| RSConnect.RenderThenWorkspace | src/publish/rsconnect/rsconnect.ts:248-287 | the render call comes first; no fetch or creation follows; the workspace is created at most once and only after a successful render, and every success created it; cleanup matches creation and is last, unless still polling |
| RSConnect.Publish | src/publish/rsconnect/rsconnect.ts:222-288 | the outcome is resolution's failure or unfinished state, else the render-then-deploy outcome for the resolved target and content; the trace is the resolution calls followed, when resolution succeeded, by the render and workspace events (the properties below are stated of these two) |
| RSConnect.PublishResolvesFirst | src/publish/rsconnect/rsconnect.ts:232-250 | with a target the first call is getContent(target.id), it happens once, and nothing is created; without one nothing is fetched |
| RSConnect.PublishCleansUp | src/publish/rsconnect/rsconnect.ts:248-287 | in the whole trace the workspace is created at most once, only after a successful render, and by every successful publish; cleanup matches creation and is the last event, unless still polling |
| RSConnect.PublishSucceedsIff | src/publish/rsconnect/rsconnect.ts:222-288 | publish succeeds exactly when the fetch (or the creation) succeeds, the render, upload and deployment succeed, and polling succeeds (its last status finished with code 0); it then returns the target, or the new record of the created content, with the content's dashboard URL |
| RSConnect.PublishFailsAtFirstFailure | src/publish/rsconnect/rsconnect.ts:222-288 | the first failing step decides the error: fetch, creation, render, upload, deployment, then polling's own error; publish is unfinished exactly when creation or polling ran out of replies |
| RSConnect.PublishCallsInOrder | src/publish/rsconnect/rsconnect.ts:236-287 | once render, upload and deployment succeed the trace is exactly: the resolution calls, render(target.url), workspace creation, uploadBundle(target.id), deployBundle(the uploaded bundle), one getTaskStatus(the deployment task) per poll, then cleanup unless still polling |
| RSConnect.ResolveTarget | src/publish/rsconnect/rsconnect.ts:211-216 | the target is handed back unchanged |
| RSConnect.FormatTargetUrl | src/publish/rsconnect/rsconnect.ts:218-220 | definition (no contract of its own): the URL's origin, scheme then "//" then host |
| RSConnect.FormatTargetUrlIgnoresPath | src/publish/rsconnect/rsconnect.ts:218-220 | URLs that differ only in their path display the same |
| AppDirs.Join | src/core/appdirs.ts:87-109 | the joined path has only non-empty segments, no more than there were parts, and ends in the last part when that is non-empty |
| AppDirs.JoinConcat | src/core/appdirs.ts:107-109 | joining a concatenation is concatenating the joins |
| AppDirs.JoinNormalised | src/core/appdirs.ts:107-109 | joining a path that has no empty segments gives the path back |
| AppDirs.JoinOnto | src/core/appdirs.ts:107-109 | joining more parts onto a normalised base extends the base |
| AppDirs.XdgBaseDirectory | src/core/appdirs.ts:106-122 | the reference rule: the variable when set and non-empty, otherwise its default below HOME |
| AppDirs.XdgUserDataDir | src/core/appdirs.ts:106-110 | the Linux data directory is the XDG data home followed by the application name |
| AppDirs.XdgUserConfigDir | src/core/appdirs.ts:112-116 | the Linux config directory is the XDG config home followed by the application name |
| AppDirs.XdgUserCacheDir | src/core/appdirs.ts:118-122 | the Linux cache directory is the XDG cache home followed by the application name |
| AppDirs.XdgUserRuntimeDir | src/core/appdirs.ts:124-132 | a normalised path: XDG_RUNTIME_DIR alone, without the application name, when it is set and non-empty; otherwise the XDG data home followed by the application name |
| AppDirs.DarwinUserDataDir | src/core/appdirs.ts:86-94 | HOME (when set and non-empty), then Library and Application Support, then the application name (when non-empty) |
| AppDirs.DarwinUserCacheDir | src/core/appdirs.ts:96-104 | HOME (when set and non-empty), then Library and Caches, then the application name (when non-empty) |
| AppDirs.WindowsUserDataDir | src/core/appdirs.ts:134-138 | APPDATA when roaming and LOCALAPPDATA otherwise (either read as "" when unset or empty), then the application name; empty parts are dropped |
| AppDirs.UserDataDir | src/core/appdirs.ts:38-48 | a normalised path that ends in the application name on the three known systems |
| AppDirs.UserConfigDir | src/core/appdirs.ts:50-60 | a normalised path that ends in the application name on the three known systems |
| AppDirs.UserCacheDir | src/core/appdirs.ts:62-72 | a normalised path that ends in the application name on the three known systems |
| AppDirs.UserRuntimeDir | src/core/appdirs.ts:74-84 | a normalised path that ends in the application name on the three known systems, except on Linux with XDG_RUNTIME_DIR set |
| AppDirs.QuartoDir | src/core/appdirs.ts:11-36 | the application name is always "quarto"; an absent or empty sub-directory gives the base directory, any other adds it as the last segment |
| AppDirs.QuartoDataDir | src/core/appdirs.ts:11-13 | the user data directory of "quarto", with the roaming flag passed on, followed by the sub-directory when it is given and non-empty |
| AppDirs.QuartoConfigDir | src/core/appdirs.ts:15-17 | the user config directory of "quarto", with the roaming flag passed on, followed by the sub-directory when it is given and non-empty |
| AppDirs.QuartoCacheDir | src/core/appdirs.ts:19-21 | the user cache directory of "quarto", which takes no roaming flag, followed by the sub-directory when it is given and non-empty |
| AppDirs.QuartoRuntimeDir | src/core/appdirs.ts:23-25 | the user runtime directory of "quarto", which takes no roaming flag, followed by the sub-directory when it is given and non-empty |
| AppDirs.LinuxDirsFollowXdg | src/core/appdirs.ts:38-122 | on Linux data, config and cache are the XDG base directories followed by the application name |
| AppDirs.LinuxDataDirCases | src/core/appdirs.ts:106-110 | XDG_DATA_HOME/app when that variable is non-empty, else HOME/.local/share/app |
| AppDirs.LinuxRuntimeDirFallsBackToData | src/core/appdirs.ts:124-132 | XDG_RUNTIME_DIR itself, without the application name, when it is set; otherwise the data directory |
| AppDirs.DarwinSharedDirs | src/core/appdirs.ts:50-104 | on macOS data and config are HOME/Library/Application Support/app, and cache and runtime are HOME/Library/Caches/app, whatever roaming says |
| AppDirs.WindowsDirs | src/core/appdirs.ts:44-138 | on Windows roaming picks APPDATA, otherwise LOCALAPPDATA (default ""); cache and runtime always take the non-roaming data directory |
| AppDirs.UnknownOsHasNoDirs | src/core/appdirs.ts:47-83 | any other operating system gives the empty path from all four functions |
| AppDirs.QuartoCacheAndRuntimeNeverRoam | src/core/appdirs.ts:19-25 | the cache and runtime wrappers equal the non-roaming data directory on Windows |
| JsStrings.Trim | tests/run-parallel-tests.ts:35-36 | the trimmed string is never longer than the input; its shape is stated by `TrimEnds` and `TrimSpan` |
| JsStrings.TrimStartDropsWhitespace | tests/run-parallel-tests.ts:35-36 | trimming the start leaves a suffix of the input, only whitespace was dropped, and it is empty or starts with non-whitespace |
| JsStrings.TrimEndDropsWhitespace | tests/run-parallel-tests.ts:35-36 | trimming the end leaves a prefix of the input, only whitespace was dropped, and it is empty or ends with non-whitespace |
| JsStrings.TrimEnds | tests/run-parallel-tests.ts:35-36 | the trimmed string is empty or has non-whitespace at both ends |
| JsStrings.TrimSpan | tests/run-parallel-tests.ts:35-36 | the trimmed string is a contiguous infix of the input with only whitespace around it |
| JsStrings.DropSpacesShape | tests/run-parallel-tests.ts:36 | dropping a leading run of spaces leaves a suffix of the input, removes only spaces, and stops at the first non-space |
| JsStrings.DropSpacesKeepsContent | tests/run-parallel-tests.ts:36 | removing spaces keeps every other character in order |
| JsStrings.CollapseSpaces | tests/run-parallel-tests.ts:36 | the collapsed string is never longer than the input; its shape is stated by the lemmas below |
| JsStrings.CollapseShape | tests/run-parallel-tests.ts:36 | no two spaces are adjacent in the result; it is empty only for empty input, starts with a space exactly when the input does, and keeps a non-space last character |
| JsStrings.CollapseKeepsContent | tests/run-parallel-tests.ts:36 | collapsing runs of spaces keeps all the non-space characters in order |
| JsStrings.CollapseSingleSpaced | tests/run-parallel-tests.ts:36 | a string with no double space is left unchanged |
| JsStrings.CollapseRun | tests/run-parallel-tests.ts:36 | collapsing works run by run: a non-empty run of spaces between a piece that does not end in a space and one that does not start with one becomes a single space, and each piece collapses on its own |
| JsStrings.Split | tests/run-parallel-tests.ts:36 | splitting gives at least one part, even for the empty string |
| JsStrings.SplitJoinsBack | tests/run-parallel-tests.ts:36 | no part contains the separator, and joining the parts with the separator gives the input back |
| JsStrings.SplitPartsNonEmpty | tests/run-parallel-tests.ts:36 | a string with no separator at either end and no two separators together splits into non-empty parts |
| JsStrings.FieldsAreWords | tests/run-parallel-tests.ts:36 | the fields of a non-blank line are non-empty, space-free, and join back with single spaces to the trimmed, collapsed line |
| ParallelTests.TimingLines | tests/run-parallel-tests.ts:14 | the trimmed file splits into at least one line, and no line contains a newline |
| ParallelTests.NamesAreRecordNames | tests/run-parallel-tests.ts:43 | a name is in the timed-test set exactly when some parsed record carries it |
| ParallelTests.PairRecord | tests/run-parallel-tests.ts:35-41 | the name is the trimmed name line: no longer than it, and without whitespace at either end; real, user and sys are read from fields 0, 2 and 4 of the trimmed, collapsed timing line ("" when a field is missing) |
| ParallelTests.Pairs | tests/run-parallel-tests.ts:34-44 | n line pairs give n records |
| ParallelTests.PairsFromLines | tests/run-parallel-tests.ts:34-44 | record k of the pairwise reading is built from lines 2k and 2k+1 |
| ParallelTests.ReadPairs | tests/run-parallel-tests.ts:34-44 | the loop consumes the lines two at a time; the records are the pairwise reading of the consumed lines and the timed-test set is the set of their names; an odd number of lines fails at the last name |
| ParallelTests.ParseTimings | tests/run-parallel-tests.ts:14-44 | the lines of the trimmed file, split at newlines, are consumed in pairs; record k is built from lines 2k and 2k+1 (the trimmed name, and fields 0, 2 and 4 of the collapsed timing line); the timed-test set is the set of their names; an odd number of lines fails at the last name |
| ParallelTests.FirstMinUnique | tests/run-parallel-tests.ts:57-66 | a sequence has at most one first minimum |
| ParallelTests.FirstMinIndex | tests/run-parallel-tests.ts:57-66 | the reference argmin of a non-empty sequence is one of its indices |
| ParallelTests.FirstMinIndexIsFirstMin | tests/run-parallel-tests.ts:57-66 | the reference argmin is the first minimum: no value is smaller, and every earlier value is strictly larger |
| ParallelTests.Argmin | tests/run-parallel-tests.ts:57-66 | -1 for an empty array; otherwise an index whose value is no larger than any other and strictly smaller than every earlier one |
| ParallelTests.InitialPlan | tests/run-parallel-tests.ts:68-70 | n empty buckets, n zero loads, and no choices yet |
| ParallelTests.Step | tests/run-parallel-tests.ts:73-75 | definition (no contract of its own); `StepIsGreedy` states what a step does |
| ParallelTests.StepIsGreedy | tests/run-parallel-tests.ts:73-75 | a step appends its choice to the earlier ones; the chosen bucket is the first least-loaded one; it alone gains the test and the test's real time, and every other bucket and load stays as it was |
| ParallelTests.PlanFor | tests/run-parallel-tests.ts:68-76 | the reference schedule has n buckets and n loads and one choice per timed test |
| ParallelTests.SumUpdate | tests/run-parallel-tests.ts:75 | adding a time to one load adds it to the total |
| ParallelTests.FlattenUpdate | tests/run-parallel-tests.ts:74 | appending a test to one bucket adds exactly that test to the buckets' contents |
| ParallelTests.PlanLoadsAreBucketTimes | tests/run-parallel-tests.ts:72-76 | each bucket's load is the sum of the real times of its tests |
| ParallelTests.PlanBucketsFollowChoices | tests/run-parallel-tests.ts:72-76 | each bucket holds exactly the tests assigned to it, in input order |
| ParallelTests.PlanChoicesAreGreedy | tests/run-parallel-tests.ts:72-76 | every test goes to the first least-loaded bucket at the time it is placed |
| ParallelTests.PlanTotalLoad | tests/run-parallel-tests.ts:72-76 | the loads add up to the total real time |
| ParallelTests.PlanForExtends | tests/run-parallel-tests.ts:72-76 | scheduling one more test is one greedy step on the schedule of the tests before it |
| ParallelTests.PlanIsPartition | tests/run-parallel-tests.ts:72-76 | the buckets together hold every timed test exactly as often as it was timed |
| ParallelTests.InitBuckets | tests/run-parallel-tests.ts:53-70 | exactly nBuckets empty buckets and nBuckets zero loads |
| ParallelTests.AssignNext | tests/run-parallel-tests.ts:73-75 | with the arrays holding a schedule, the test goes to that schedule's first least-loaded bucket and the arrays end holding the next greedy step (only that bucket and its load change); with no buckets the index is -1 and nothing changes |
| ParallelTests.Distribute | tests/run-parallel-tests.ts:68-76 | with at least one bucket (or nothing to place) the arrays end equal to the reference schedule; with no bucket and a test to place, the source's push at index -1 fails |

## Left out

- Prompts, spinners and console output (`Input.prompt`, `Secret.prompt`, `withSpinner`, `info`, `completeMessage`, `promptError`) are user interface. Prompt answers are inputs, and the messages are not modelled.
- The RStudio Connect HTTP client (`./api/index.ts`) is not part of this model. Each call is a reply, either a value or an `ApiError(status)` / `TransportError`, with no transport, headers or URLs.
- Validating and normalising the server URL (`new URL`, `ensureProtocolAndTrailingSlash`) is an input. Each `ServerEntry` carries the normalised URL, or `None` when the answer is not an http(s) URL.
- `pandocAutoIdentifier` and `randomHex` are inputs: the slug is `baseName` and the suffixes come with the attempts. Freshness of suffixes is a hypothesis of `ContentNameInjective`.
- `createBundle`, `Deno.readFileSync` and `Blob` are file I/O. The bundle is opaque, and a failure while building it is not modelled. Neither is a `dashboard_url` that `new URL` rejects.
- The bodies of `readAccessTokens`, `writeAccessToken` and `writeAccessTokens` are not part of this model. Stored accounts are an input; the model returns the account that is upserted and the list that is written back. The upsert's effect on the store is not modelled, because only the match function handed to it (same server) is visible.
- The render callback's failure is modelled as a call error; its output is not used.
- The publish error (`PublishFailed`) carries the code and the status message as data rather than the formatted text "Error attempting to publish content: code - error".
- The unbounded loops (server prompt, key prompt, creation retry, status poll) terminate in the model because their inputs are finite. Running out of input is the `Unfinished` outcome, so non-termination is represented but not proved.
- `ensureDirSync` in `quartoDir` is filesystem I/O. `Deno.build.os` and `Deno.env` become parameters.
- RSConnect.FormatTargetUrl: gives scheme, "//" and host, which is `URL.origin` only for http(s) URLs; for other schemes such as `file:` the origin is "null". Content URLs from the server are http(s), so other schemes are not modelled.
- AppDirs.Join: models `join` as concatenation of non-empty segments. Separators, `..` and absolute-path normalisation are not modelled.
- AppDirs.Join: when every part is empty, the path library's `join` returns "."; the model gives the empty path. This matters only for a Windows directory with neither variable set and an empty application name.
- AppDirs.XdgBaseDirectory: the XDG Base Directory Specification also says a relative path in a variable is to be ignored; `appdirs.ts` does not do that, and neither does the model.
- Timing values: `Number(...)` parsing is a parameter `toMillis` from a token to a natural number of milliseconds. NaN and fractional timings are not modelled, and a missing field is passed as "".
- From `tests/run-parallel-tests.ts`, the following are not modelled:
  - the file read and the existence check;
  - `expandGlobSync`;
  - spawning the test processes in parallel;
  - the speedup printout, which uses floating-point division.
- The missing-test branch (`tests/run-parallel-tests.ts:78-84`) is not modelled. It picks a bucket with `Math.random`, and at line 82 it calls `push` on a number (a load) instead of a bucket, which fails at run time.
- `nBuckets` (`Number(Deno.args[1]) || navigator.hardwareConcurrency`) is a parameter.
