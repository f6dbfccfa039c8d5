# babl-build, modelled in Dafny

babl-build is the command-line tool that builds, pushes and deploys a Babl
module. A Babl module is a Docker image run as an application of a
Marathon-style scheduler. This project models the core of the tool and
proves properties of that model:

- **Identity** (`identity.dfy`). How a module is named: the service type,
  the scheduler id `type-module`, the version `v<commit count>`, the image
  reference `registry.babl.sh:5000/<id>:<version>`, the `:latest` rewrite,
  and the docker command lines of `build`, `push`, `play` and `sh`.
- **Descriptor** (`descriptor.dfy`). The deployment descriptor record of
  config.go, with a nullable `mem`. It covers the `overwrites` loaded by
  `init` from babl.yml and the override-wins merge of .babl-build.yml into
  the bundled template. It also covers the JSON form with its
  omit-when-empty rules, plus a reference reader of that form for the round
  trip.
- **Scheduler** (`scheduler.dfy`). The requests to the scheduler. The
  current `deploy` POSTs with up to three attempts and retries on 409 after
  a one-second sleep. The legacy `deploy` sends a single POST. `destroy`
  sends one DELETE. A reply is either a transport error or a status with a
  body.
- **Commands** (`commands.dfy`). `conf`, and the process itself as a `Tool`
  object. Its fields are the package-level state (`overwrites`), the number
  of requests sent, the trace of what it printed, logged, started, slept
  and sent, and whether it has exited. The `build`, `push`, `play`, `sh`,
  `version`, `config`, `deploy`, `destroy` and `dist` commands are methods
  of that object. Each is proved against a function of the workspace and
  the replies.
- **Legacy** (`legacy.dfy`). The older single-file revision, with its own
  `Tool` object and a method for each of its commands. Its record has a
  plain-number `mem` and no port mappings or parameters. Both the overrides
  and the merge come from .babl-build.yml, and its `deploy` sends exactly
  one POST.
- `effects.dfy`, `json.dfy` and `wrappers.dfy` hold the observable events,
  JSON values and `Option`/`Result`.

The outside world comes in as inputs:

- The working directory's base name, the output of `git rev-list HEAD
  --count`, the two YAML files (each unreadable, malformed or parsed), the
  scheduler host and the dry-run flag form a `Workspace`.
- The scheduler's replies are an infinite sequence `nat -> Reply`, indexed
  by the number of requests sent so far.

Where the code and the repository's other evidence disagree, the model
follows the code:

- **The id separator.** commands.go:86 joins the type and the module with
  `-`. The repository's test (commands_test.go:17) expects
  `larskluge/string-upcase`. `Commands.FixtureId` shows the code yields
  `larskluge-string-upcase`.
- **The override files.** In the current revision the id's type and
  `play`'s options come from babl.yml (config.go:50-54), while `conf`
  merges .babl-build.yml (commands.go:40). These are two independent
  inputs. So the descriptor's SERVICE_TAGS can disagree with the type in
  its id (`Commands.IdIgnoresLocalServiceTags`).
- **Dry runs.** `--dry-run` only reaches `execute`. A dry `dist` still
  sends the DELETE, and then the POST when the DELETE was accepted and
  `conf` succeeds: it sends exactly the requests of a real run
  (`Commands.DryRunStillTalksToScheduler`).
- **The sleep after the third 409.** The guard `i < retries` is always true
  inside the loop (commands.go:185). So a third 409 is still followed by
  the "Retrying" log and a one-second sleep, and no fourth request is sent
  (`Scheduler.AlwaysConflict`).
- **Order inside `dist`.** `dist` deletes the running application before
  `conf` can reject a malformed .babl-build.yml
  (`Commands.DistDeletesBeforeConfigCheck`).

## Model

| member | source | states |
|---|---|---|
| Identity.TrimLeftSpec | commands.go:112-115 | the result is a suffix of the input, everything removed is white space, and the result does not start with white space |
| Identity.TrimRightSpec | commands.go:112-115 | the result is a prefix of the input, everything removed is white space, and the result does not end with white space |
| Identity.TrimSpace | commands.go:112-115 | the trimmed git count neither starts nor ends with white space |
| Identity.TrimLeftSkips | commands.go:112-115 | leading white space in front of a non-space character is removed exactly |
| Identity.TrimRightSkips | commands.go:112-115 | trailing white space after a non-space character is removed exactly |
| Identity.TrimSpaceUnique | commands.go:112-115 | for any split into white space, trimmed text and white space, TrimSpace returns exactly the middle part |
| Identity.TrimSpaceIsInfix | commands.go:112-115 | TrimSpace keeps a contiguous part of its input, character for character |
| Identity.VersionOfCount | commands.go:112-115 | the version of a checkout whose git count printed `n` and a newline is "v" followed by `n` |
| Identity.VersionHasNoColon | commands.go:112-115 | a version starts with 'v' and has no colon when the git count has none |
| Identity.ServiceType | commands.go:105-110 | the type is never empty: it is the service tag, or "babl" when the tag is empty |
| Identity.IdParts | commands.go:85-87 | the id is the type, a hyphen and the module name, and both parts can be read back by position |
| Identity.VersionShape | commands.go:112-115 | the version is "v" followed by text that neither starts nor ends with white space |
| Identity.ImageParts | commands.go:89-91 | the image is the registry, the id, a colon and the version, each readable back by position |
| Identity.ImageOfCheckout | commands.go:89-91 | the image is the registry `registry.babl.sh:5000/`, the id, a colon, "v" and the trimmed git count |
| Identity.ImageLatestShape | commands.go:93-95 | the `:latest` rewrite either leaves the reference alone, or keeps it up to a colon that is followed by at least one character and no further colon and appends ":latest" |
| Identity.LastColon | commands.go:93-95 | the position returned holds a colon and no colon follows it; None exactly when there is no colon |
| Identity.LastColonIsUnique | commands.go:93-95 | any colon with no colon after it is the one LastColon finds |
| Identity.NoColonAfter | commands.go:93-95 | no index after a colon-free tail holds a colon |
| Identity.ImageLatestIsRegexReplace | commands.go:93-95 | `:[^:]+$` matches at most once; with no match the string is unchanged; with a match the tail from the colon becomes ":latest" |
| Identity.ImageLatestUnchanged | commands.go:93-95 | a string without a colon, or ending in a colon, is left as it is |
| Identity.ImageLatestIdempotent | commands.go:93-95 | rewriting to `:latest` twice is rewriting once |
| Identity.ImageLatestOfImage | commands.go:89-95 | the latest tag of an image is the registry (with port 5000), the id and ":latest" |
| Identity.ImageLatestKeepsRegistry | commands.go:89-95 | whatever the id and version, the latest tag still starts with the registry |
| Identity.LatestImageOfCheckout | commands.go:85-95 | for a git count without colons, the latest tag is registry + type + "-" + module + ":latest" |
| Identity.IdInjectiveInModule | commands.go:85-87 | for one type, different modules have different ids |
| Identity.IdSeparatorAmbiguous | commands.go:85-87 | with a hyphen separator, two different (type, module) pairs can share an id |
| Identity.ShArgv | commands.go:233-243 | the `sh` command line is the `play` command line followed by "sh" |
| Identity.PlayArgvLayout | commands.go:224-230 | `play` runs `docker run` with BABL_MODULE=<module> at a fixed position, then the options, then the image last |
| Identity.ContainerOptions | commands.go:55-60 | the options are those of the overrides; the result is empty exactly when they are nil or empty, so nil becomes an empty list |
| Identity.BuildArgvLayout | commands.go:130-133 | `build` runs `docker build -t <image>`, then the extra arguments in order, then the context "." last |
| Identity.PushesBuiltReferences | commands.go:128-158 | `push` pushes the image that `build` tagged with `-t`, and the `:latest` reference that `docker tag` gave it |
| Effects.JoinKeepsArguments | commands.go:63 | `strings.Join` keeps every argument, in order, with one space between neighbours and nothing else |
| Effects.ExecEchoesThenSpawns | commands.go:62-75 | `execute` echoes the command line with its words separated by spaces (a trailing space when there are no arguments), then starts exactly that subprocess unless the run is dry; it sends no request and does not exit |
| Effects.DockerStepsSendNoRequest | commands.go:128-158 | `build` and `push` send no request; a dry run starts no subprocess; otherwise `docker build` is started |
| Descriptor.Overwrites | config.go:50-54 | the overrides are the parsed babl.yml, or all zero (no SERVICE_TAGS, nil options) when the file is missing or malformed |
| Descriptor.Merge | commands.go:45-47 | each scalar field (id, instances, cpus, mem, cmd, type, image, network, forcePullImage and the four env values) is the override's when the override sets it and the template's otherwise; a nil `mem` is unset, `mem: 0` is set; the lists are in `MergeReplacesWholeLists` |
| Descriptor.MergeZeroOverride | commands.go:45-47 | an override that sets nothing leaves the template unchanged |
| Descriptor.MergeIdempotent | commands.go:45-47 | merging the same override twice equals merging it once |
| Descriptor.MergeAssociative | commands.go:45-47 | layering overrides one after another equals merging the layered overrides first |
| Descriptor.MemAbsentDiffersFromZero | config.go:37 | an absent `mem` keeps the template's, an explicit `mem: 0` gives a present zero, and the two results differ |
| Descriptor.MergeReplacesWholeLists | commands.go:45-47 | every list of the merge result is one side's list, whole: the override's when it is neither nil nor empty, else the template's |
| Descriptor.EncodePortMapping | config.go:17-22 | `hostPort` is always written; `containerPort`, `servicePort` and `protocol` are written exactly when non-zero or non-empty |
| Descriptor.EncodeDocker | config.go:13-27 | image, forcePullImage and network are always written; portMappings and parameters exactly when non-empty |
| Descriptor.EncodeContainer | config.go:11-34 | type and docker are always written; options and volumes exactly when non-empty |
| Descriptor.Encode | config.go:9-46 | every top-level key is written; `mem` is null exactly when absent; `uris` is null exactly when nil |
| Descriptor.PortMappingRoundTrip | config.go:17-22 | reading a written port mapping back gives the same port mapping |
| Descriptor.ParameterRoundTrip | config.go:23-26 | reading a written parameter back gives the same parameter |
| Descriptor.VolumeRoundTrip | config.go:29-33 | reading a written volume back gives the same volume |
| Descriptor.StringsRoundTrip | config.go:28 | reading a written string list back gives the same list |
| Descriptor.DockerRoundTrip | config.go:13-27 | reading the docker record back gives it up to empty-versus-nil omitted lists |
| Descriptor.ContainerRoundTrip | config.go:11-34 | reading the container record back gives it up to empty-versus-nil omitted lists |
| Descriptor.DecodeEncode | config.go:9-46 | reading the JSON descriptor back gives the descriptor, with empty omitted lists as nil |
| Descriptor.EncodeNormalize | config.go:9-46 | replacing empty omitted lists by nil does not change the JSON form |
| Descriptor.EncodeInjectiveUpToNormalize | config.go:9-46 | two descriptors have the same JSON form exactly when they agree up to empty-versus-nil omitted lists |
| Descriptor.MemAbsentAndZeroEncodeDifferently | config.go:37 | absent `mem` and `mem: 0` are written as different documents |
| Scheduler.AppsUrl | commands.go:166-167 | the POST goes to `http://`, then the host, then `:8080/v2/apps` (the scheduler's port and path), each part readable back by position |
| Scheduler.AppUrl | commands.go:197-199 | the DELETE goes to the apps URL, a slash and the id |
| Scheduler.PostWithRetries | commands.go:173-191 | the counted loop with continue/break produces exactly the events, request count and exit of the POST attempts |
| Scheduler.PostAttemptsSpawnNothing | commands.go:173-191 | the POST loop starts no subprocess |
| Scheduler.PostAttemptsStops | commands.go:173-191 | one to three requests; every reply but the last was a 409; fewer than three only after a non-409; fatal exactly when the last reply was a transport error |
| Scheduler.EchoedCounts | commands.go:174-184 | an attempt that gets a response sends one POST and does not sleep |
| Scheduler.PostAttemptsUnfold | commands.go:174-190 | a 409 is echoed, logged and followed by a one-second sleep and the next attempt; any other status ends the loop |
| Scheduler.PostAttemptsCounts | commands.go:173-191 | one POST per reply read, and exactly one sleep per 409 among those replies |
| Scheduler.PostAttemptsFatalIsLast | commands.go:174-177 | after a transport error no further event happens |
| Scheduler.ConflictTwiceThenSuccess | commands.go:173-191 | two 409s and then a 200: three requests, two sleeps, no exit |
| Scheduler.AlwaysConflict | commands.go:185-189 | a scheduler that always answers 409 gets three requests and three sleeps, the last event is the sleep, and the process goes on |
| Scheduler.RejectionIsOnlyLogged | commands.go:179-190 | at any attempt, a status neither 2xx nor 409 is echoed with its body and logged, ends the loop after one request, and is not fatal |
| Scheduler.SinglePost | babl-build.go:217-225 | one request; fatal exactly on a transport error; the body is echoed exactly when 200 <= status < 400; no log and no sleep |
| Scheduler.PostOnce | babl-build.go:217-225 | the straight-line legacy POST produces exactly the events, request count and exit of the single POST |
| Scheduler.DestroyRunShape | commands.go:194-212 | one DELETE to the app URL and no POST; the body is echoed right after the request; fatal, with a fatal last event, exactly on a transport error or a non-2xx status |
| Scheduler.DeleteOnce | commands.go:203-210 | the straight-line DELETE produces exactly the events, request count and exit of `destroy` |
| Commands.ResolveSpec | commands.go:31-53 | `conf` fails exactly on a malformed .babl-build.yml; otherwise the id is type + "-" + module, the image is built from that id and the trimmed count, and BABL_MODULE is the module |
| Commands.ResolveKeepsMerged | commands.go:40-48 | every field that `conf` does not compute is the merged one, or the template's when the file is absent |
| Commands.ResolveKeepsNullableMem | commands.go:40-48 | an explicit `mem: 0` in .babl-build.yml survives `conf`; an absent `mem`, or an absent file, keeps the template's |
| Commands.IdIgnoresLocalServiceTags | commands.go:85-87 | the id does not depend on .babl-build.yml; a file setting SERVICE_TAGS "web" still gives an id of type "babl" |
| Commands.FixtureId | commands.go:85-87 | for service tag "larskluge" and module "string-upcase" the id is "larskluge-string-upcase", not the "larskluge/string-upcase" the repository's test expects |
| Commands.MissingBablYmlDefaults | config.go:50-54 | without a usable babl.yml the type is "babl" and `play` passes no extra options |
| Commands.PlayUsesBablYmlOptions | commands.go:55-60 | the options of babl.yml appear between the fixed docker-run arguments and the image |
| Commands.PostOrFailShape | commands.go:159-192 | `deploy` starts no subprocess; it sends a request once it has a body, and none when `conf` failed |
| Commands.MalformedLocalStopsDeployEarly | commands.go:159-165 | a malformed .babl-build.yml ends `deploy` before any request |
| Commands.DeployPostsResolved | commands.go:159-192 | with a usable .babl-build.yml, `deploy` is the POST loop on the JSON form of the resolved descriptor: one to three requests, one POST per request |
| Commands.DestroyTargetsModule | commands.go:194-212 | `destroy` sends one DELETE, to the apps URL, a slash and the module's id, and no POST |
| Commands.DistRequestCount | commands.go:213-221 | `dist` sends one to four requests, and only the DELETE exactly when the DELETE failed or .babl-build.yml is malformed |
| Commands.DeploySpawnsNothing | commands.go:159-192 | `deploy` starts no subprocess |
| Commands.DestroyThenPostShape | commands.go:194-220 | `destroy` then `deploy` begins with the DELETE and starts no subprocess |
| Commands.DestroyThenDeployShape | commands.go:213-221 | the second half of `dist` begins with the DELETE and starts no subprocess |
| Commands.DockerStepsNoRequest | commands.go:216-217 | the `build` and `push` steps of `dist` send no request |
| Commands.DistDeletesAfterDockerSteps | commands.go:213-221 | `dist` first does exactly the events of `build` and `push`, with no request among them, and next sends the DELETE |
| Commands.DistRunSteps | commands.go:213-221 | the events of `dist` are build, push, destroy and, unless destroy ended the process, deploy |
| Commands.DistSpawnsNothingAfterDelete | commands.go:213-221 | after the DELETE, `dist` starts no subprocess |
| Commands.DistPostsOnlyAfterAcceptedDelete | commands.go:208-219 | a failed DELETE ends `dist` without a POST, and any POST follows an accepted DELETE |
| Commands.DryRunStillTalksToScheduler | commands.go:62-75 | a dry run sends as many requests as a real run, and at least one |
| Commands.DistDeletesBeforeConfigCheck | commands.go:213-221 | with a malformed .babl-build.yml and an accepted DELETE, `dist` sends the DELETE, no POST, and stops on the configuration error |
| Commands.DestroyThenMalformed | commands.go:218-219 | an accepted DELETE followed by a malformed .babl-build.yml ends with the configuration error and no POST |
| Commands.Tool.constructor | config.go:50-54 | after start-up the overrides are those of babl.yml, or all zero when it is missing or malformed, and nothing has happened yet |
| Commands.Tool.Conf | commands.go:31-53 | the field-by-field updates give the resolved descriptor |
| Commands.Tool.Execute | commands.go:62-75 | the command line is echoed, and the subprocess is started unless the run is dry |
| Commands.Tool.Build | commands.go:128-136 | `docker build -t <image> <args> .` then `docker tag -f <image> <latest>` |
| Commands.Tool.Push | commands.go:152-158 | `docker push <image>` then `docker push <latest>` |
| Commands.Tool.Play | commands.go:222-232 | runs the `play` command line with the babl.yml options and the image |
| Commands.Tool.Sh | commands.go:233-243 | runs the `sh` command line with the babl.yml options and the image |
| Commands.Tool.PrintVersion | commands.go:137-142 | prints the version |
| Commands.Tool.PrintConfig | commands.go:143-151 | prints the JSON descriptor, or exits on a malformed .babl-build.yml |
| Commands.Tool.Deploy | commands.go:159-192 | the trace, request count and exit are those of the POST attempts of the resolved descriptor |
| Commands.Tool.BuildAndPush | commands.go:216-217 | the first half of `dist` leaves the trace of `build` without arguments followed by that of `push` |
| Commands.Tool.DestroyAndDeploy | commands.go:218-219 | the second half of `dist`: the DELETE, then `deploy` unless the DELETE ended the process |
| Commands.Tool.Destroy | commands.go:194-212 | the trace, request count and exit are those of the DELETE of the module's id |
| Commands.Tool.Dist | commands.go:213-221 | the trace is that of build and push followed by destroy and deploy, stopping after a fatal destroy; the request count and exit are those of destroy and deploy |
| Legacy.ZeroMemCannotOverride | babl-build.go:44 | with a plain-number `mem`, an override `mem: 0` leaves the template's value, where the nullable `mem` of the current revision keeps the zero |
| Legacy.EncodeContainer | babl-build.go:28-41 | type and docker are always written; options and volumes exactly when non-empty |
| Legacy.Encode | babl-build.go:26-52 | every top-level key is written, with no module version; `mem` is always a number; `uris` is null exactly when nil |
| Legacy.MergeTakesSetFields | babl-build.go:128-130 | every field of the legacy record, lists included, is the override's when it is not the zero value and the template's otherwise; an empty list and `mem: 0` count as unset |
| Legacy.MergeZeroOverride | babl-build.go:128-130 | an override that sets nothing leaves the template unchanged |
| Legacy.MergeIdempotent | babl-build.go:128-130 | merging the same override twice equals merging it once |
| Legacy.ZeroMemIsWritten | babl-build.go:44 | the legacy record has no unset `mem`: 0 is written as 0, and merging an all-zero override does not change that document |
| Legacy.ResolveSpec | babl-build.go:114-136 | `conf` fails exactly on a malformed .babl-build.yml; otherwise it carries the computed id, image and module name |
| Legacy.LocalServiceTagsApply | babl-build.go:164-168 | a .babl-build.yml setting SERVICE_TAGS gives the descriptor that value and an id of that type |
| Legacy.MalformedFileDefaultsType | babl-build.go:164-168 | a malformed .babl-build.yml leaves the type "babl" for the other commands but stops `conf` |
| Legacy.DeploySendsOnce | babl-build.go:203-227 | exactly one POST and no sleep; fatal exactly on a transport error; the body is echoed exactly when 200 <= status < 400 |
| Legacy.MalformedStopsDeploy | babl-build.go:123-127 | a malformed .babl-build.yml ends the legacy `deploy` before any request |
| Legacy.DestroyTargetsModule | babl-build.go:228-246 | the legacy `destroy` sends one DELETE and no POST, to the apps URL, a slash, the type from the service tags of .babl-build.yml, a hyphen and the module name |
| Legacy.PlayUsesLocalOptions | babl-build.go:256-277 | `play` and `sh` take their options from .babl-build.yml (none when it is not parsed), end with the image, and `sh` appends "sh" |
| Legacy.DistRunSteps | babl-build.go:247-255 | the events of the legacy `dist` are build, push, destroy and, unless destroy ended the process, deploy |
| Legacy.DeployGivesUpOnConflict | babl-build.go:217-225 | a 409 is neither retried nor echoed nor fatal |
| Legacy.DistDeletesAfterDockerSteps | babl-build.go:247-255 | the legacy `dist` does `build` and `push` first, with no request, then sends the DELETE for the module's id |
| Legacy.DestroyThenDeployPosts | babl-build.go:228-253 | destroy then deploy sends at most two requests, and one POST exactly when the DELETE was accepted and the file is not malformed |
| Legacy.DistRequests | babl-build.go:247-255 | the legacy `dist` sends at most two requests and posts exactly when the DELETE was accepted and the descriptor resolved |
| Legacy.Tool.constructor | babl-build.go:164-168 | after start-up the overrides are those of .babl-build.yml, or all zero when it is missing or malformed |
| Legacy.Tool.Conf | babl-build.go:114-136 | the field-by-field updates give the resolved legacy descriptor |
| Legacy.Tool.Execute | babl-build.go:138-151 | the trace gains the echoed command line and, unless the run is dry, the subprocess |
| Legacy.Tool.Build | babl-build.go:172-180 | the trace gains `docker build` of the legacy image with the extra arguments, then `docker tag` to `:latest` |
| Legacy.Tool.Push | babl-build.go:196-202 | the trace gains `docker push` of the legacy image, then of its `:latest` reference |
| Legacy.Tool.Play | babl-build.go:256-266 | the trace gains `docker run` with the options of .babl-build.yml and the legacy image |
| Legacy.Tool.Sh | babl-build.go:267-277 | the trace gains the `play` command line followed by "sh" |
| Legacy.Tool.PrintVersion | babl-build.go:181-186 | the trace gains exactly the version line |
| Legacy.Tool.PrintConfig | babl-build.go:187-195 | the trace gains the JSON form of the resolved descriptor, or the fatal error that ends the process |
| Legacy.Tool.Destroy | babl-build.go:228-246 | the trace, request count and exit are those of the single DELETE of the legacy id |
| Legacy.Tool.BuildAndPush | babl-build.go:250-251 | the first half of the legacy `dist`: the trace of `build` without arguments followed by that of `push` |
| Legacy.Tool.DestroyAndDeploy | babl-build.go:252-253 | the second half of the legacy `dist`: the DELETE, then the single POST unless the DELETE ended the process |
| Legacy.Tool.Dist | babl-build.go:247-255 | the trace is that of build and push followed by destroy and deploy, stopping after a fatal destroy; the request count and exit are those of destroy and deploy |
| Legacy.Tool.Deploy | babl-build.go:203-227 | the trace, request count and exit are those of the single POST of the resolved descriptor |

## Left out

- Subprocesses: `execute` always succeeds in the model. A non-zero exit status of `docker` (os.Exit with its code) and a failure to start it (log.Fatal) are not modelled.
- `getOutput` and `module`: the git commit count and the working directory's base name are inputs. A failing `git` or `os.Getwd` is not modelled.
- `http.NewRequest` errors (a malformed host) are not modelled. The URL is a string built from the host.
- Whether a retried POST still carries its body is left to `net/http` and not modelled. The request is built once (commands.go:166-174), and every attempt is recorded with the same body.
- JSON text: key order, whitespace and the trailing newline of `json.Encoder` are not modelled. Objects are maps, so the model states which keys are written, not in what order.
- Floating point: `cpus` and `mem` are reals. NaN, infinities and negative zero are not modelled.
- YAML: a file is unreadable, malformed or parsed. A partial decode that yaml.v2 leaves behind on a type error (which `init` keeps, since it ignores the error) is not modelled. A malformed babl.yml gives all-zero overrides.
- `mergo.MergeWithOverwrite` is modelled as a field-wise choice. A field of the override wins when it is not Go's zero value: nil or empty for a slice, nil for a pointer, false for a bool. Lists are replaced whole. mergo's own code is not part of this model.
- The command table, `help`, option parsing and `main` (main.go, options.go, and the help closure of babl-build.go:278-313) are not modelled.
- The legacy commands are `Legacy.Tool` methods. They share the `Identity`, `Effects` and `Scheduler` functions with the current revision wherever the statements are the same; only the legacy record, `conf`, `deploy` and the options of `play`/`sh` have definitions of their own.
- The `_conf` cache that main_test.go:23 clears is not defined in the modelled files and is not part of this model. Neither is a `v0` fallback for a failing git, nor a port rule for the "web" service tag. `BABL_MODULE_VERSION` is carried and encoded but never set by `conf`.
- The scheduler's replies are an infinite sequence. Running out of replies, timeouts and closed connections are all a transport error.
- Log timestamps and log and fatal message texts: logs and fatal exits are events carrying their reason, not formatted text.
