# Minecraft manager: the Portainer service and its string helpers, in Dafny

This project models the core of the Minecraft manager. The manager runs Minecraft servers as
Docker Compose stacks on a Portainer instance and drives them through Portainer's HTTP API.
It models:

- the string helpers shared by client and server (`packages/shared/src/utilities.ts`):
  - `camelCaseToSnakeCase`
  - `objectToEnvValues`, which gives configuration keys their environment-variable names
  - `createStackName`, which gives a stack a file-system-safe name
- two revisions of the `PortainerService` class:
  - the current one, `packages/server/src/services/portainer.service.ts` (module `Portainer`)
  - the older one, `packages/server/src/server/services/portainer.service.ts` (module
    `PortainerLegacy`); its unit test `portainer.service.spec.ts` is stated as lemmas in
    `PortainerLegacyExamples`

Both revisions cache a Portainer JWT in the service's `token` field:

- **Current revision:** it checks the token with `GET /api/users` and logs in again when the check
  fails.
- **Older revision:** it checks the token with `GET /api/status`. When that answers with a status
  other than 200, it takes the reply's `jwt`. Only a rejection mentioning `status code 401` makes
  it log in again.

Both revisions list the Minecraft stacks, start and stop stacks, and look up the endpoint.
Creating a stack follows these steps:

1. stop every active Minecraft stack;
2. reject a missing name with BAD_REQUEST;
3. post a compose file whose server environment is the translated defaults, overlaid with the
   translated user options, with `EULA: true`.

**How the model is built.**

- **HTTP client.** The client is a `ScriptedClient` (module `Api`), a stand-in for the mocked
  axios of the unit tests. It answers each request from a queue of scripted replies, falls back to
  a default reply, and records every request.
- **Specification functions.** Every operation of a service has one; each function maps a `State`
  to an `Outcome`:
  - a `State` is the token, the remaining replies and the request log;
  - an `Outcome` is the operation's result or error, plus the new state.
- **Class methods.** The `PortainerService` class of each module holds the `token` field and the
  client. Each of its methods is proved to end exactly in the outcome its specification function
  gives.
- **Properties.** The lemmas state properties of the specification functions: which requests are
  sent, to which stacks, in which cases, and what is returned.
- **Targets.** `Api.Targets` extracts from a request log the stacks a request kind acts on (file,
  start, stop or create). Most properties about the stacks acted on are stated through it.

## Model

| member | source | states |
|---|---|---|
| Utilities.CamelCaseToSnakeCase | packages/shared/src/utilities.ts:1-6 | the split at `\.?(?=[A-Z])` (the ES split algorithm, step by step), joined with `_`, lower-cased: the result has no capital |
| Utilities.MatchEnd | packages/shared/src/utilities.ts:3 | a match of `\.?(?=[A-Z])` at a position ends just before a capital, either at that position or after a `.` there; every capital gives a match |
| Utilities.SplitFrom | packages/shared/src/utilities.ts:3 | the ES split of the rest of the string always yields at least one part |
| Utilities.SnakeCaseReference | packages/shared/src/utilities.ts:1-6 | the result equals a per-character reference: a `.` before a capital becomes `_`, a capital not at index 0 and not after such a `.` gets one `_` before it, everything else is copied; then lower-cased |
| Utilities.EnvKey | packages/shared/src/utilities.ts:13 | the environment name of a key has no lower-case letter |
| Utilities.EnvKeyAsSnake | packages/shared/src/utilities.ts:13 | the environment name of a key is the upper-cased reference translation |
| Utilities.SnakeCaseWithoutUpper | packages/shared/src/utilities.ts:1-6 | a key without capitals only changes case (`pvp` becomes `PVP` as an environment name) |
| Utilities.SnakeCaseLength | packages/shared/src/utilities.ts:1-6 | the result is as long as the input plus one per capital boundary (a dot before a capital counts zero) |
| Utilities.EnvKeyTwoWords | packages/shared/src/utilities.ts:1-13 | a lower-case word followed by a capitalised word translates to `WORD_WORD` |
| Utilities.EnvKeyThreeWords | packages/shared/src/utilities.ts:1-13 | three such words translate to `WORD_WORD_WORD` |
| Utilities.UpperOfLower | packages/shared/src/utilities.ts:13 | upper-casing after the helper's lower-casing is upper-casing alone |
| Utilities.EnvValues | packages/shared/src/utilities.ts:12-14 | after the entries are written one by one, the last entry's translated key holds its value |
| Utilities.ObjectToEnvValues | packages/shared/src/utilities.ts:8-16 | the loop that writes one translated key per entry builds exactly the map `EnvValues` of the entries |
| Utilities.EnvValuesKeys | packages/shared/src/utilities.ts:8-16 | the output's keys are exactly the translated input keys |
| Utilities.EnvValuesLastWins | packages/shared/src/utilities.ts:12-14 | an entry's value is kept under its translated key unless a later entry translates to the same key |
| Utilities.StripDisallowed | packages/shared/src/utilities.ts:19 | deleting the characters outside `[a-zA-Z0-9-_ ]` never lengthens the string |
| Utilities.StripOutput | packages/shared/src/utilities.ts:19 | after the first replacement only allowed characters remain |
| Utilities.CollapseOutput | packages/shared/src/utilities.ts:19 | after the second replacement every character is `_` or a non-space character of its input |
| Utilities.CollapseSpaces | packages/shared/src/utilities.ts:19 | replacing each run of spaces by one `_` never lengthens the string |
| Utilities.CreateStackName | packages/shared/src/utilities.ts:18-20 | the result has only `[A-Za-z0-9-_]`, no space, and is never longer than the name |
| Utilities.CreateStackNameKeepsSafe | packages/shared/src/utilities.ts:19 | a name made only of `[A-Za-z0-9-_]` is returned unchanged |
| Utilities.CreateStackNameIdempotent | packages/shared/src/utilities.ts:19 | applying the helper twice is applying it once |
| Utilities.CreateStackNameDropsDisallowed | packages/shared/src/utilities.ts:19 | a run of disallowed characters anywhere is deleted before spaces are collapsed |
| Utilities.CreateStackNameSpaceRun | packages/shared/src/utilities.ts:19 | a run of one or more spaces between safe parts becomes one `_` |
| Utilities.SpaceRunBecomesUnderscore | packages/shared/src/utilities.ts:19 | collapsing spaces turns a run of spaces after a non-space into a single `_` |
| UtilitiesExamples.EnvKeyAllowNether | packages/server/src/server/services/portainer.service.spec.ts:657 | `allowNether` becomes `ALLOW_NETHER` |
| UtilitiesExamples.EnvKeyMaxBuildHeight | packages/server/src/server/services/portainer.service.spec.ts:663 | `maxBuildHeight` becomes `MAX_BUILD_HEIGHT` |
| UtilitiesExamples.EnvKeySpawnAnimals | packages/server/src/server/services/portainer.service.spec.ts:665 | `spawnAnimals` becomes `SPAWN_ANIMALS` |
| UtilitiesExamples.EnvKeyPvp | packages/server/src/server/services/portainer.service.spec.ts:671 | `pvp` becomes `PVP` |
| UtilitiesExamples.StackNamesUnchanged | packages/server/src/shared/utilities.spec.ts:6-11 | `hello`, `42-hello` and `someThing` are returned unchanged |
| UtilitiesExamples.StackNameOneSpace | packages/server/src/shared/utilities.spec.ts:7 | `hello world` becomes `hello_world` |
| UtilitiesExamples.StackNameSpaceRuns | packages/server/src/shared/utilities.spec.ts:8 | `hello  world       today` becomes `hello_world_today` |
| UtilitiesExamples.StackNameStripped | packages/server/src/shared/utilities.spec.ts:9 | `hello#world` becomes `helloworld` |
| UtilitiesExamples.StackNameSymbols | packages/server/src/shared/utilities.spec.ts:12-15 | the punctuation test string becomes `nice_world` |
| Api.JwtOf | packages/server/src/services/portainer.service.ts:82 | `response?.data?.jwt`: the reply's `jwt`, undefined for any other body |
| Api.StackListOf | packages/server/src/services/portainer.service.ts:140 | `response.data \|\| []`: no data lists nothing, a list is itself, another shape cannot be filtered |
| Api.FirstEndpointOf | packages/server/src/services/portainer.service.ts:202 | `response.data[0].Id` succeeds exactly on a non-empty endpoint list, with its first id |
| Api.ScriptedClient.Send | packages/server/src/server/services/portainer.service.spec.ts:129-133 | the mocked client answers with the next queued reply (or the default one), drops it, and records the request |
| Api.ActiveIds | packages/server/src/services/portainer.service.ts:250-256 | the ids of the listed stacks whose status is `PortainerStatus.active`, in order |
| Api.ActiveIdsExact | packages/server/src/services/portainer.service.ts:252 | an id is in that list exactly when some listed stack has it and is active |
| Api.Environment | packages/server/src/services/portainer.service.ts:288-292 | the server's environment always has `EULA` set to true |
| Api.EnvironmentMerge | packages/server/src/services/portainer.service.ts:288-292 | `EULA` is true; a key is present exactly when it is `EULA` or a translated default or option; options win over defaults; other defaults survive |
| Api.SentUntargeted | packages/server/src/services/portainer.service.ts:77-94 | a login or probe request (and equally a list or endpoint request) acts on no stack |
| Api.SentFile | packages/server/src/services/portainer.service.ts:119-123 | a stack-file request adds its stack to the file targets and no other |
| Api.SentStart | packages/server/src/services/portainer.service.ts:172-176 | a start request adds its stack to the start targets and no other |
| Api.SentStop | packages/server/src/services/portainer.service.ts:183-187 | a stop request adds its stack to the stop targets and no other |
| Api.SentCreate | packages/server/src/services/portainer.service.ts:307-321 | a creation request adds its endpoint to the creation targets and no other |
| Portainer.Authenticate | packages/server/src/services/portainer.service.ts:73-113 | no token: one login, whose `jwt` becomes the token and the result; a token the `/api/users` probe accepts with 200: one request, the token is kept; a non-200 status or a 401 rejection: the probe and exactly one login, whose `jwt` is returned; a rejected login (with no token, or after the refusal) propagates its error; another rejection: it propagates after the probe alone; one or two requests, never more; no stack is acted on |
| Portainer.PortainerService.GetAuthToken | packages/server/src/services/portainer.service.ts:73-113 | the method's result, token and request log are those of `Authenticate` |
| Portainer.MetadataOf | packages/server/src/services/portainer.service.ts:124-126 | a stack-file reply gives its `x-metadata` block; a rejection gives its error; any other body is a type error |
| Portainer.StackMetadata | packages/server/src/services/portainer.service.ts:116-127 | on success exactly one stack file is asked for, that of the given stack; nothing else is acted on; never BAD_REQUEST |
| Portainer.StackMetadataResult | packages/server/src/services/portainer.service.ts:116-127 | after `getAuthToken` succeeds, exactly the file request of the given stack is sent with that token, and the result is the `x-metadata` of its reply (a rejection or another body fails); a failed authentication is passed on with no file request |
| Portainer.PortainerService.GetStackMetadata | packages/server/src/services/portainer.service.ts:116-127 | the method ends as `StackMetadata` describes |
| Portainer.Marked | packages/server/src/services/portainer.service.ts:143-145 | the filter never adds a stack |
| Portainer.MarkedExact | packages/server/src/services/portainer.service.ts:143-145 | the filter keeps exactly the stacks whose `Env` (missing counts as empty) has an entry named `PORTAINER_MINECRAFT_STACK` |
| Portainer.MarkedAppend | packages/server/src/services/portainer.service.ts:143-145 | the filter keeps the stacks' order: filtering a concatenation concatenates the filtered parts |
| Portainer.Summaries | packages/server/src/services/portainer.service.ts:148-152 | each kept stack becomes `{id, stackName, status}`, one record per stack, in order |
| Portainer.FetchMetadata | packages/server/src/services/portainer.service.ts:155-162 | the metadata walk asks only for stack files, gives one metadata entry per stack, and never fails with BAD_REQUEST |
| Portainer.FetchMetadataValues | packages/server/src/services/portainer.service.ts:155-162 | the i-th entry of a successful walk is what `getStackMetadata` returns for the i-th stack's id, read after the first i stacks |
| Portainer.FetchMetadataRequests | packages/server/src/services/portainer.service.ts:155-162 | a metadata walk that succeeds asks for each listed stack's file exactly once, in order |
| Portainer.FetchMetadataStops | packages/server/src/services/portainer.service.ts:155-162 | the first failing metadata request ends the walk with its error |
| Portainer.OverlayFields | packages/server/src/services/portainer.service.ts:157-160 | `{...stack, ...metadata}`: a key is present when it is in either; metadata keys win; the stack's other fields survive |
| Portainer.SummaryOverlay | packages/server/src/services/portainer.service.ts:157-160 | in `{...summary, ...metadata}` each metadata key holds the metadata's value; `id`, `stackName` and `status` not in the metadata hold the stack's own; no other key appears |
| Portainer.ListStacks | packages/server/src/services/portainer.service.ts:130-166 | the listing asks for no start, stop or creation and never fails with BAD_REQUEST |
| Portainer.ListStacksResult | packages/server/src/services/portainer.service.ts:130-166 | after the stack list `raw` is read, the listing succeeds exactly when the metadata walk over the marked stacks does (its error is passed on otherwise); it is then those stacks, projected and overlaid with the walk's metadata, with one file request per kept stack |
| Portainer.ListStacksEntry | packages/server/src/services/portainer.service.ts:148-162 | the i-th listed stack is `{id, stackName, status}` of the i-th marked stack, overlaid with the `x-metadata` that `getStackMetadata` returns for that stack's id |
| Portainer.PortainerService.FetchAllMetadata | packages/server/src/services/portainer.service.ts:155-162 | the loop over the kept stacks ends as the metadata walk `FetchMetadata` describes |
| Portainer.PortainerService.ListMinecraftStacks | packages/server/src/services/portainer.service.ts:130-166 | the method ends as `ListStacks` describes |
| Portainer.Start | packages/server/src/services/portainer.service.ts:168-177 | a start that succeeds acts on exactly the given stack and nothing else |
| Portainer.StartResult | packages/server/src/services/portainer.service.ts:168-177 | after `getAuthToken` succeeds, exactly `POST /api/stacks/<id>/start` with that bearer token is sent; a response gives success, a rejection propagates; a failed authentication is passed on with nothing sent |
| Portainer.PortainerService.StartStack | packages/server/src/services/portainer.service.ts:168-177 | the method ends as `Start` describes |
| Portainer.Stop | packages/server/src/services/portainer.service.ts:179-188 | a stop that succeeds acts on exactly the given stack and nothing else |
| Portainer.StopResult | packages/server/src/services/portainer.service.ts:179-188 | after `getAuthToken` succeeds, exactly `POST /api/stacks/<id>/stop` with that bearer token is sent; a response gives success, a rejection propagates; a failed authentication is passed on with nothing sent |
| Portainer.PortainerService.StopStack | packages/server/src/services/portainer.service.ts:179-188 | the method ends as `Stop` describes |
| Portainer.EndpointId | packages/server/src/services/portainer.service.ts:190-205 | the endpoint lookup acts on no stack and never fails with BAD_REQUEST |
| Portainer.EndpointIdResult | packages/server/src/services/portainer.service.ts:190-205 | after `getAuthToken` succeeds, one endpoint-list request is sent with that token; a non-empty list gives its first endpoint's `Id`; an empty or missing list is a type error; a rejection propagates; a failed authentication is passed on |
| Portainer.PortainerService.GetEndpointId | packages/server/src/services/portainer.service.ts:190-205 | the method ends as `EndpointId` describes |
| Portainer.StopActive | packages/server/src/services/portainer.service.ts:250-256 | the stopping step sends no request other than stops and never fails with BAD_REQUEST |
| Portainer.StopActiveTargets | packages/server/src/services/portainer.service.ts:250-256 | stopping the listed stacks, when it succeeds, stops exactly the active ones, each once, in order |
| Portainer.StopActiveStops | packages/server/src/services/portainer.service.ts:250-256 | the first failing stop ends the walk with its error |
| Portainer.PortainerService.StopActiveStacks | packages/server/src/services/portainer.service.ts:250-256 | the stopping loop ends as `StopActive` describes |
| Portainer.Prepare | packages/server/src/services/portainer.service.ts:242-248 | login, endpoint lookup and listing start, stop and create no stack and never fail with BAD_REQUEST |
| Portainer.Finish | packages/server/src/services/portainer.service.ts:250-321 | the steps after the listing never start a stack |
| Portainer.Create | packages/server/src/services/portainer.service.ts:237-322 | creating a stack never starts one |
| Portainer.FinishRejects | packages/server/src/services/portainer.service.ts:258-267 | a missing name always fails, creates nothing, and fails with BAD_REQUEST exactly when every stop succeeded |
| Portainer.CreateRejectsMissingName | packages/server/src/services/portainer.service.ts:242-267 | a missing or empty name fails without a creation request, and with BAD_REQUEST exactly when login, lookup, listing and stopping all succeeded |
| Portainer.CreateStopsActive | packages/server/src/services/portainer.service.ts:248-256 | a creation that reaches the name check has stopped exactly the listed stacks that were active |
| Portainer.CreatePosts | packages/server/src/services/portainer.service.ts:307-321 | a creation that succeeds sent the new stack's request last, with the first token and the looked-up endpoint, and created exactly one stack |
| Portainer.NewStackShape | packages/server/src/services/portainer.service.ts:268-305 | the request is `POST /api/stacks?type=2&method=string&endpointId=`; the body name is the safe name; `env` is only the marker; `x-metadata` holds the raw name and the given description and owner (`''` when missing); the environment is the merge; the data volume uses the safe name; the fixed parts are version `3`, image `itzg/minecraft-server:latest`, port `25565:25565` and the read-only `/etc/localtime` volume |
| Portainer.PortainerService.CreateStack | packages/server/src/services/portainer.service.ts:237-322 | the method ends as `Create` describes |
| PortainerLegacy.Authenticate | packages/server/src/server/services/portainer.service.ts:61-91 | no token: one login, whose `jwt` becomes the token; a 200 from `/api/status`: one request, the token is kept; another status: one request, the reply's `jwt` becomes the token and the result; a 401 rejection: the probe and exactly one login, whose `jwt` is returned; a rejected login (with no token, or after the 401) propagates its error; another rejection propagates; at most two requests |
| PortainerLegacy.PortainerService.GetAuthToken | packages/server/src/server/services/portainer.service.ts:61-91 | the method's result, token and request log are those of `Authenticate` |
| PortainerLegacy.Kept | packages/server/src/server/services/portainer.service.ts:103-110 | the filter never adds a stack |
| PortainerLegacy.KeptExact | packages/server/src/server/services/portainer.service.ts:103-110 | the filter keeps exactly the stacks whose name contains `minecraft` in any case or that carry the marker entry |
| PortainerLegacy.KeptAppend | packages/server/src/server/services/portainer.service.ts:103-110 | the filter keeps the stacks' order |
| PortainerLegacy.Listings | packages/server/src/server/services/portainer.service.ts:111-115 | each kept stack becomes `{id, name, status}`, one record per stack, in order |
| PortainerLegacy.ListStacks | packages/server/src/server/services/portainer.service.ts:93-116 | the listing acts on no stack and never fails with BAD_REQUEST |
| PortainerLegacy.ListStacksResult | packages/server/src/server/services/portainer.service.ts:93-116 | after a login, the listing sends one request with the token and returns the projected Minecraft stacks of its reply |
| PortainerLegacy.PortainerService.ListMinecraftStacks | packages/server/src/server/services/portainer.service.ts:93-116 | the method ends as `ListStacks` describes |
| PortainerLegacy.Start | packages/server/src/server/services/portainer.service.ts:118-125 | a start that succeeds acts on exactly the given stack and nothing else |
| PortainerLegacy.StartResult | packages/server/src/server/services/portainer.service.ts:118-125 | after `getAuthToken` succeeds, exactly `POST /api/stacks/<id>/start` with that bearer token is sent; a response gives success, a rejection propagates; a failed authentication is passed on with nothing sent |
| PortainerLegacy.PortainerService.StartStack | packages/server/src/server/services/portainer.service.ts:118-125 | the method ends as `Start` describes |
| PortainerLegacy.Stop | packages/server/src/server/services/portainer.service.ts:136-143 | a stop that succeeds acts on exactly the given stack and nothing else |
| PortainerLegacy.StopResult | packages/server/src/server/services/portainer.service.ts:136-143 | after `getAuthToken` succeeds, exactly `POST /api/stacks/<id>/stop` with that bearer token is sent; a response gives success, a rejection propagates; a failed authentication is passed on with nothing sent |
| PortainerLegacy.PortainerService.StopStack | packages/server/src/server/services/portainer.service.ts:136-143 | the method ends as `Stop` describes |
| PortainerLegacy.EndpointId | packages/server/src/server/services/portainer.service.ts:145-156 | the endpoint lookup acts on no stack and never fails with BAD_REQUEST |
| PortainerLegacy.EndpointIdResult | packages/server/src/server/services/portainer.service.ts:145-156 | after `getAuthToken` succeeds, one endpoint-list request is sent with that token; a non-empty list gives its first endpoint's `Id`; an empty or missing list is a type error; a rejection propagates; a failed authentication is passed on |
| PortainerLegacy.PortainerService.GetEndpointId | packages/server/src/server/services/portainer.service.ts:145-156 | the method ends as `EndpointId` describes |
| PortainerLegacy.StopActive | packages/server/src/server/services/portainer.service.ts:194-200 | the stopping step sends no request other than stops and never fails with BAD_REQUEST |
| PortainerLegacy.StopActiveTargets | packages/server/src/server/services/portainer.service.ts:194-200 | stopping the listed stacks, when it succeeds, stops exactly the active ones, each once, in order |
| PortainerLegacy.StopActiveStops | packages/server/src/server/services/portainer.service.ts:194-200 | the first failing stop ends the walk with its error |
| PortainerLegacy.PortainerService.StopActiveStacks | packages/server/src/server/services/portainer.service.ts:194-200 | the stopping loop ends as `StopActive` describes |
| PortainerLegacy.Prepare | packages/server/src/server/services/portainer.service.ts:189-193 | login, endpoint lookup and listing act on no stack and never fail with BAD_REQUEST |
| PortainerLegacy.Finish | packages/server/src/server/services/portainer.service.ts:194-262 | the steps after the listing never start a stack |
| PortainerLegacy.Create | packages/server/src/server/services/portainer.service.ts:185-263 | creating a stack never starts one |
| PortainerLegacy.FinishRejects | packages/server/src/server/services/portainer.service.ts:202-210 | a missing name always fails, creates nothing, and fails with BAD_REQUEST exactly when every stop succeeded |
| PortainerLegacy.CreateRejectsMissingName | packages/server/src/server/services/portainer.service.ts:189-210 | a missing or empty name fails without a creation request, and with BAD_REQUEST exactly when every earlier step succeeded |
| PortainerLegacy.CreateStopsActive | packages/server/src/server/services/portainer.service.ts:193-200 | a creation that reaches the name check has stopped exactly the listed stacks that were active |
| PortainerLegacy.CreatePosts | packages/server/src/server/services/portainer.service.ts:248-262 | a creation that succeeds sent the new stack's request last, with the first token and the looked-up endpoint, and created exactly one stack |
| PortainerLegacy.NewStackShape | packages/server/src/server/services/portainer.service.ts:211-246 | the safe name is the body name, the `x-metadata` name and the data directory; `env` is only the marker; `x-metadata` holds the given description and owner (`''` when missing); the environment is the merge; the fixed parts are version `3`, image `itzg/minecraft-server:latest`, port `25565:25565` and the read-only `/etc/localtime` volume |
| PortainerLegacy.PortainerService.CreateStack | packages/server/src/server/services/portainer.service.ts:185-263 | the method ends as `Create` describes |
| PortainerLegacyExamples.Mentions401Literal | packages/server/src/server/services/portainer.service.spec.ts:129 | the test's rejection `status code 401` matches `/status code 401/i` |
| PortainerLegacyExamples.AuthWithoutToken | packages/server/src/server/services/portainer.service.spec.ts:61-91 | without a token, one `POST /api/auth` with the credentials, and the reply's `jwt` is returned and kept |
| PortainerLegacyExamples.AuthWithValidToken | packages/server/src/server/services/portainer.service.spec.ts:93-124 | with a valid token, one `GET /api/status` with the bearer token, and the token is returned unchanged |
| PortainerLegacyExamples.AuthWithExpiredToken | packages/server/src/server/services/portainer.service.spec.ts:126-162 | with an expired token, the probe then the login, and the new token is returned and kept |
| PortainerLegacyExamples.KeptFixture | packages/server/src/server/services/portainer.service.spec.ts:248-351 | of `nginx-proxy`, `recipes` and `minecraft-test`, only the last is kept |
| PortainerLegacyExamples.ListFixture | packages/server/src/server/services/portainer.service.spec.ts:377-382 | the listing of the fixture is `[{id: 4, name: 'minecraft-test', status: inactive}]` |
| PortainerLegacyExamples.ActiveFixture | packages/server/src/server/services/portainer.service.spec.ts:581-587 | of stacks 40, 42 and 44, only 42 is active |
| PortainerLegacyExamples.CreateStopsFixture | packages/server/src/server/services/portainer.service.spec.ts:618-626 | creating a stack with those stacks listed stops 42 and no other |
| PortainerLegacyExamples.ServerNameKept | packages/server/src/server/services/portainer.service.spec.ts:628-688 | `server-<digits>` is already safe, so it is the body name, the `x-metadata` name and the data directory |
| PortainerLegacyExamples.GivenMetadataKept | packages/server/src/server/services/portainer.service.spec.ts:690-724 | with description `something weird` and owner `Nobody`, the `x-metadata` is exactly the name, `something weird` and `Nobody` |
| PortainerLegacyExamples.EnvKeyIcon | packages/server/src/server/services/portainer.service.spec.ts:694 | `icon` becomes `ICON` |
| PortainerLegacyExamples.SomeOptionsValues | packages/server/src/server/services/portainer.service.spec.ts:692-699 | the five options of the test translate to exactly `ICON`, `ALLOW_NETHER`, `MAX_BUILD_HEIGHT`, `SPAWN_ANIMALS` and `PVP`, with their values |
| PortainerLegacyExamples.SomeOptionsEnvironment | packages/server/src/server/services/portainer.service.spec.ts:728-752 | those options win in the server's environment, every other default survives, and `EULA` is true |

## Left out

- HTTP transport (axios, `getUrl`, `new URL`, query parameters) is replaced by the scripted client and its request log. A path and its query are a `Path` value, not a URL string.
- YAML `stringify`/`parse`, `JSON.stringify` and `path.resolve` are not interpreted:
  - the compose file is the structured value before serialisation;
  - a stack file reply carries its parsed `x-metadata` block;
  - the data volume is the pair of root and directory.
- `defaultMinecraftConfig` is not part of this model. It is the `defaults` of the configuration, a list of entries in key order.
- `Promise.all` in the metadata walk and in the stopping step runs its calls one after another, and the first failure ends the walk. Concurrent interleavings are not modelled, and neither is the order in which the parallel calls would be issued.
- Object key order is modelled only as the order of the entry list passed to `objectToEnvValues`. The result of the two object spreads of the metadata overlay is a map, so its key order is not modelled.
- Logger calls are left out; they only observe.
- `createVolume` (both revisions) is left out. `createStack` never calls it, and it is a single request.
- The older revision declares `stopStack` twice with identical bodies (lines 127-134 and 136-143). The later declaration is the one that takes effect, and it is modelled once.
- The older revision has no `getStackMetadata`, although its unit test calls one (spec lines 165-230). That test therefore has no counterpart here.
- Reply shapes:
  - a reply that resolves without a status (the tests' `{}`) is written as an `Ok` reply with a status other than 200;
  - a probe that resolves to nothing at all is not modelled: reading its `.status` would throw an error without a 401 message, which would propagate;
  - a body of the wrong shape is a type error, not a JavaScript value;
  - the stack fields `Id`, `Name` and `Status` are an integer, a string and an integer.
- JavaScript's `toLowerCase`/`toUpperCase` are full Unicode. The model maps only ASCII letters, as the helpers' regular expressions also do.
- The React clients, the controllers, the modules and the bootstrap are not part of this model.
- Points of the two revisions that are easy to misread, stated as the code has them:
  - After a refused token, the current revision logs in once and returns that token without probing again.
  - The older revision takes the `jwt` of a non-200 probe reply instead of logging in.
  - The login reply's field is `jwt`.
  - The older revision puts the safe name in `x-metadata`, and the current revision puts the raw name there.
