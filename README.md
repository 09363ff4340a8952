# riser-server: rollout, desired state, git repo and status mapping

This project models the parts of riser-server that turn a traffic rollout
request into desired state in the state git repository, and the mapping of
deployment status between the domain and the API.

- **Rollout validation** (`RolloutValidation`). This covers
  `RolloutRequest.Validate` and `TrafficRule.Validate`. One pass over the
  traffic rules keeps three things: the running percentage sum, the set of
  revisions seen so far, and a list of errors, each tagged with the rule's
  position `traffic[i]`. After the pass come two request-level rules: the
  list must not be empty, and the percentages must add up to 100. `Validate`
  is the loop, with a `map` for the revisions seen. `ValidationErrors` is the
  function that specifies it.
- **Rollout handler** (`RolloutHandler`). `mapTrafficRulesToDomain` turns each
  rule into a domain rule named `<deployment>-<revision>`. `PutRollout` runs
  four steps in order, each of which can return early: validate the
  environment, bind the body, validate the request, update traffic. A
  "no changes" result from the update becomes a 200 "No changes to rollout".
- **State rendering** (`Render`). This covers the lower-case, slash-joined
  path builders for the fixed directory layout of the state repository
  (`stages/<stage>/kube-resources/riser-managed/...` and
  `stages/<stage>/configs/...`). It also covers the loop that renders one
  file per Kubernetes resource, and the renderers for generic resources,
  sealed secrets, deployments and app config.
- **Git repository** (`GitRepo`). `Repo` is a class holding the repository
  settings and a log of every git command it has issued. Whether a command
  succeeds comes from an oracle (`Host`). The model covers:
  - the settings checks in `NewRepo` and the order they run in;
  - `init`'s choice between cloning and refreshing (fetch, clean, then reset);
  - `ResetHardRemote` fetching before it resets;
  - `Commit` stopping at its first failing step, and turning a "no changes"
    failure into `ErrNoChanges`.
- **Status mapping** (`StatusModel`, `StatusMapping`). Two pure functions map
  between the domain `DeploymentStatus` of pkg/core and the API status. One
  reports a deployment's status; the other stores a status reported by a
  cluster, stamped with the current time. Round-trip lemmas relate the two
  directions.
- **Shared definitions.** `Core` holds the domain datatypes of
  pkg/core/deployment_types.go. `Decimal` is the `%d` formatting used in
  revision names, with its round trip. `Wrappers` holds `Option` and `Result`.

I/O is passed in as parameters:
- git execution, `processFiles` and `isNoChangesErr` are functions in `Host`;
- `os.Stat`, `util.EnsureDir` and `ioutil.ReadDir` are outcome parameters of
  `NewRepo` and `Repo.Init`;
- `util.ToYaml` is a `Serializer` function that can fail;
- the clock is the `now` parameter;
- the HTTP binding and the environment and rollout services are outcome
  parameters of `PutRollout`.

## Model

| member | source | states |
|---|---|---|
| RolloutValidation.Validate | api/v1/model/rollout.go:19-51 | The loop that sums percentages, records revisions in a map and accumulates position-tagged errors returns exactly the errors `ValidationErrors` specifies: the per-rule errors in rule order, then the request-level errors. |
| RolloutValidation.RuleErrors | api/v1/model/rollout.go:53-58 | `TrafficRule.Validate`: a rule has no field errors exactly when it is valid. The per-field messages are stated by `RuleErrorsSpec`. |
| RolloutValidation.RuleErrorsSpec | api/v1/model/rollout.go:53-58 | A rule has no field errors exactly when its revision is positive and its percent is in [0,100]. A zero revision gives exactly the "cannot be blank" error. A negative revision or percent gives the "no less than 0" error, and a percent above 100 the "no greater than 100" error. A rule has at most two errors. A percent of 0 is accepted. |
| RolloutValidation.NoErrorsIff | api/v1/model/rollout.go:23-50 | A request has no errors exactly when the list is non-empty, every rule is valid, no revision repeats, and the percents sum to 100. |
| RolloutValidation.ErrorsAtPosition | api/v1/model/rollout.go:25-34 | The errors tagged `traffic[i]` are exactly the ones produced at step i of the loop: the duplicate error for rule i, then rule i's field errors. |
| RolloutValidation.StepErrorsInLoop | api/v1/model/rollout.go:23-35 | An error produced at a step before n remains among the errors accumulated after n steps; nothing is short-circuited or dropped. |
| RolloutValidation.LoopErrorLocated | api/v1/model/rollout.go:23-35 | Every error accumulated in the first n steps carries a rule position below n, and was produced at that step. |
| RolloutValidation.LoopErrorsEmpty | api/v1/model/rollout.go:23-35 | The loop accumulates no errors exactly when every rule it has visited is valid and does not repeat an earlier revision. |
| RolloutValidation.DuplicateReportedAtLaterOccurrence | api/v1/model/rollout.go:25-30 | The "specified twice" error is reported at position i exactly when an earlier rule has the same revision. So it is reported at every later occurrence, never the first. |
| RolloutValidation.RuleErrorsTagged | api/v1/model/rollout.go:31-34 | Each field error of rule i appears in the request's errors, tagged with position i. |
| RolloutValidation.RequestLevelErrors | api/v1/model/rollout.go:37-49 | An empty list yields the single error "must specify one or more traffic rules"; that error appears exactly when the list is empty. "rule percentages must add up to 100" appears exactly when the list is non-empty and the sum differs from 100, and it is then the last error, whatever the per-rule errors are. |
| RolloutValidation.PrefixTextInjective | api/v1/model/rollout.go:28-33 | Different positions give different `traffic[i]` keys, and no position gives the empty request-level key. So an error's key tells which rule it belongs to. |
| RolloutValidation.RevisionsMembership | api/v1/model/rollout.go:22-30 | A revision is in the map built by the loop exactly when some rule carries it. |
| RolloutValidation.ErrorsAccumulate | api/v1/model/rollout.go:24-48 | With a duplicated revision and an out-of-range percent, one result holds the duplicate error, the field error and the sum error together. |
| RolloutValidation.OutOfRangePercentsCount | api/v1/model/rollout.go:24 | Percents of 150 and -50 sum to 100, so only the two range errors are reported. The sum includes out-of-range percents. |
| RolloutValidation.ExampleSplitsValidate | api/v1/model/rollout.go:19-58 | A 90/10 split and a 100/0 split on distinct positive revisions are valid. |
| RolloutHandler.MapTrafficRulesToDomain | api/v1/rollout.go:54-64 | The domain traffic has the input's length and order. Each rule keeps its revision and percent, and is named the deployment name, then `-`, then the revision in decimal. An empty list maps to an empty config. |
| RolloutHandler.RevisionName | api/v1/rollout.go:59 | A revision name starts with the deployment name and a dash. `RevisionNameParsesBack` states that the rest reads back as the revision, and `RevisionNameInjective` that the name determines the revision. |
| RolloutHandler.RevisionNameParsesBack | api/v1/rollout.go:59 | After `<deployment>-` comes the revision in decimal digits: the digits of a non-negative revision read back as it, and a negative one has a minus sign followed by the digits of its magnitude. |
| RolloutHandler.RevisionNameInjective | api/v1/rollout.go:59 | For a fixed deployment, different revisions give different revision names. |
| RolloutHandler.ValidatedTrafficHasDistinctNames | api/v1/rollout.go:37-43 | Traffic that passed validation maps to domain rules with pairwise distinct revision names. |
| RolloutHandler.RevisionNameExample | api/v1/rollout.go:59 | Revisions 1 and 12 of `mydep` are named `mydep-1` and `mydep-12`. |
| RolloutHandler.PutRollout | api/v1/rollout.go:19-52 | The environment check is always the first call. An invalid environment returns before binding. A bind or validation failure returns without calling `UpdateTraffic`; a validation failure returns "Invalid rollout request" with the errors. `UpdateTraffic` gets the namespaced name, the environment and the mapped traffic. Its "no changes" error becomes a 200 "No changes to rollout", any other error is returned, and success returns nothing. `UpdateTraffic` is called only for a valid request. |
| Decimal.NatToDecimal | api/v1/rollout.go:59 | `%d` of a non-negative number is a non-empty string of decimal digits. `DecimalRoundTrip` states that it reads back as the number. |
| Decimal.IntToDecimal | api/v1/rollout.go:59 | `%d` of an integer starts with a minus sign exactly when it is negative. The rest is the decimal digits of its magnitude. |
| Decimal.DecimalRoundTrip | api/v1/rollout.go:59 | Reading back the decimal digits of n gives n. |
| Decimal.IntToDecimalInjective | api/v1/rollout.go:59 | `%d` formatting of an int64 is injective, so the revision is recoverable from the name. |
| Render.PlatformResourcesPath | pkg/state/render.go:102-109 | The platform root is lower case. Its layout is stated by `PlatformResourcesPathShape`. |
| Render.FileNameFromResource | pkg/state/render.go:119-121 | A resource's file name is lower case and non-empty. Its layout is stated by `FileNameShape`. |
| Render.GenericResourcesPath | pkg/state/render.go:111-117 | A generic resource's path is lower case. Its layout is stated by `GenericResourcesPathShape` and `ClusterScopedResourcePathShape`. |
| Render.DeploymentScmPath | pkg/state/render.go:74-81 | A deployment resource's path is lower case. Its layout is stated by `DeploymentScmPathShape`. |
| Render.SecretScmPath | pkg/state/render.go:83-90 | A sealed secret's path is lower case. Its layout is stated by `SecretScmPathShape`. |
| Render.AppConfigScmPath | pkg/state/render.go:92-100 | The app config's path is lower case. Its layout is stated by `AppConfigScmPathShape`. |
| Render.PlatformResourcesPathShape | pkg/state/render.go:102-109 | The platform root is `stages/<stage>/kube-resources/riser-managed`, with the stage lower-cased. |
| Render.FileNameShape | pkg/state/render.go:119-121 | A resource's file name is `<kind>.<name>.yaml`, lower-cased. |
| Render.GenericResourcesPathShape | pkg/state/render.go:111-117 | A namespaced generic resource is written to `stages/<stage>/kube-resources/riser-managed/<namespace>/<kind>.<name>.yaml`, all lower-cased. |
| Render.ClusterScopedResourcePathShape | pkg/state/render.go:111-117 | A resource without a namespace sits directly in the platform root. The empty segment is skipped. |
| Render.DeploymentScmPathShape | pkg/state/render.go:74-81 | A deployment's resource is written to `<platform root>/<namespace>/deployments/<deployment>/<kind>.<name>.yaml`, all lower-cased. |
| Render.SecretScmPathShape | pkg/state/render.go:83-90 | A sealed secret is written to `<platform root>/<secret namespace>/secrets/<app>/<kind>.<name>.yaml`, all lower-cased. |
| Render.AppConfigScmPathShape | pkg/state/render.go:92-100 | The app config is written to `stages/<stage>/configs/<namespace>/<app>/<deployment>.yaml`, all lower-cased. |
| Render.PathsAreLowerCase | pkg/state/render.go:74-121 | Every path the renderers produce has no upper-case letter, whatever the inputs. |
| Render.ToLowerJoin | pkg/state/render.go:75-80 | Lower-casing a joined path is the same as joining the lower-cased segments. This is why the nested `ToLower` calls agree with the outer one. |
| Render.RenderKubeResources | pkg/state/render.go:59-72 | The loop returns the result `RenderedFiles` specifies: one file per resource until the first serialization failure. |
| Render.RenderedFilesSucceedsIff | pkg/state/render.go:61-65 | Rendering succeeds exactly when every resource serializes. |
| Render.RenderedFilesContents | pkg/state/render.go:60-71 | When every resource serializes, there is exactly one file per resource, in input order. Each file is named by the path rule and holds that resource's serialization. |
| Render.RenderedFilesFirstFailure | pkg/state/render.go:62-65 | A failed rendering reports the first resource that did not serialize: its `%q`-formatted object kind and the serializer's error. Every resource before it serialized. No files are returned. |
| Render.RenderedFailurePropagates | pkg/state/render.go:61-65 | Once a prefix of the resources fails, later resources do not change the result. |
| Render.RenderGeneric | pkg/state/render.go:18-22 | Generic rendering is the loop with the generic-resource path rule for the stage. |
| Render.RenderSealedSecret | pkg/state/render.go:24-28 | A sealed secret renders to exactly one file at its secret path, or to the serialization error. |
| Render.RenderAppConfig | pkg/state/render.go:48-57 | The app config renders to one file at the app config path with its serialization, or to "Error serializing app config". |
| Render.RenderDeployment | pkg/state/render.go:30-46 | A failure to render the deployment's resources returns that error. Otherwise an app config failure returns its error. Otherwise the result is the resource files followed by the app config file, last. |
| Render.RenderDeploymentCount | pkg/state/render.go:30-46 | When everything serializes, a deployment with n resources yields n + 1 files. |
| GitRepo.BuildGitCmd | pkg/git/service.go:169-173 | A git command runs `git` with the given arguments after it, in the local git directory. |
| GitRepo.BuildGitCmdExample | pkg/git/service_test.go:31-41 | `status` in `/tmp/git` builds `["git", "status"]` with directory `/tmp/git`. |
| GitRepo.GitErrorMessageExample | pkg/git/service.go:157-167 | A failed git command's error names the arguments it ran, as `git [add --all]: <cause>`. |
| GitRepo.ExecOutcome | pkg/git/service.go:157-167 | A command fails exactly when the oracle says it fails; the failure wraps the oracle's cause with the command's arguments. |
| GitRepo.RunSteps | pkg/git/service.go:106-155 | A sequence of steps with early exit issues a prefix of the steps. Each issued command is built from its step. If there is no error, every step was issued. Otherwise the last issued command failed against the log before it, and the error carries that step's arguments and the cause the host gave. |
| GitRepo.RunStepsAppend | pkg/git/service.go:119-131 | Running two step lists in sequence is running the first, then, if it succeeded, the second with the log extended. |
| GitRepo.EarlierStepsSucceeded | pkg/git/service.go:119-131 | Every issued step but the last succeeded against the log as it stood when it ran. |
| GitRepo.FailedAtLastStep | pkg/git/service.go:119-131 | A step sequence fails exactly when its last issued command failed. |
| GitRepo.SettingsError | pkg/git/service.go:63-72 | An empty SSH key path skips both checks. With a key, an `https://` URL fails with the "Cannot use both..." error. Otherwise the key fails exactly when it cannot be stat'ed, with the stat error wrapped. |
| GitRepo.HttpsCheckedBeforeKeyFile | pkg/git/service.go:63-66 | With a key and an `https://` URL the result does not depend on the key file. Its message is the exact "Cannot use both an https git url and specify an SSH key. Either use an SSH url or remove the key". |
| GitRepo.HttpsWithKeyExample | pkg/git/service_test.go:20-29 | The test's `https://not-ssh.org` with key `/bogus/path` gives that exact message. |
| GitRepo.ResetFetchesFirst | pkg/git/service.go:146-155 | `ResetHardRemote` first issues `fetch -f origin <branch>`. A failed fetch stops there; otherwise it issues `reset --hard origin/<branch>`. |
| GitRepo.InitFailsBeforeGit | pkg/git/service.go:106-114 | If the git directory cannot be ensured or read, no git command is issued, and the error is "error ensuring git dir" or "error reading git dir" with the cause. |
| GitRepo.InitEmptyDirClones | pkg/git/service.go:115-135 | `init` on an empty directory issues exactly `clone --branch <branch> --single-branch --depth=1 <url> <dir>` and fails exactly when that fails. |
| GitRepo.InitPopulatedDirRefreshes | pkg/git/service.go:119-155 | `init` on a non-empty directory issues a prefix of `fetch -f origin <branch>`, `clean -xdf`, `fetch -f origin <branch>`, `reset --hard origin/<branch>`. It succeeds exactly when all four were issued and the reset succeeded. |
| GitRepo.CommitArgsShape | pkg/git/service.go:23-96 | The commit command is `git commit -m <message> --author "riser-server <riser-server@tempuri.org>"`. |
| GitRepo.CommitStopsAtFirstFailure | pkg/git/service.go:82-96 | `Commit` processes the files, then runs `add --all`, then runs the commit, stopping at the first failure. A file-processing failure issues no command. An add failure issues only the add. A commit failure that the no-changes test recognizes returns `ErrNoChanges`, and only then; any other commit failure is returned unchanged, with the commit arguments and its cause. Success means both commands ran and succeeded. |
| GitRepo.Repo.ExecGitCmd | pkg/git/service.go:157-167 | Appends exactly the built command to the log and returns its outcome. |
| GitRepo.Repo.AddAll | pkg/git/service.go:98-100 | Appends `git add --all` to the log and returns its outcome. |
| GitRepo.Repo.Push | pkg/git/service.go:102-104 | Appends `git push` to the log and returns its outcome. |
| GitRepo.Repo.Clone | pkg/git/service.go:133-135 | Appends the clone command to the log and returns its outcome. |
| GitRepo.Repo.Fetch | pkg/git/service.go:137-139 | Appends `fetch -f origin <branch>` to the log and returns its outcome. |
| GitRepo.Repo.Clean | pkg/git/service.go:141-144 | Appends `clean -xdf` to the log and returns its outcome. |
| GitRepo.Repo.ResetHardRemote | pkg/git/service.go:146-155 | Extends the log with exactly the commands of the fetch-then-reset sequence and returns its error. |
| GitRepo.Repo.Refresh | pkg/git/service.go:119-131 | Extends the log with the fetch, clean and reset-hard-remote commands up to the first failure, and returns that failure. |
| GitRepo.Repo.Init | pkg/git/service.go:106-131 | Extends the log with the commands of `init`: none on a directory error, the clone for an empty directory, the refresh otherwise. |
| GitRepo.Repo.Commit | pkg/git/service.go:82-96 | Extends the log with the add and commit commands up to the first failure, and returns the `Commit` outcome described above. |
| GitRepo.NewRepo | pkg/git/service.go:57-80 | A settings error returns no repository and issues no command. Otherwise `init` runs on a fresh repository with an empty log. The repository is returned exactly when `init` succeeded, and its log is the commands `init` issued. |
| StatusMapping.MapDeploymentToStatusModel | api/v1/status_test.go:15-121 | The API status carries the deployment's name, stage and generation. When a status is stored, it also carries the observed generation, the latest created and ready revision names, and the revisions and traffic. Without one, it reports the zero status. |
| StatusMapping.MapDeploymentStatusFromModel | api/v1/status_test.go:123-207 | The stored status is stamped with the current time. It carries the observed generation, the latest created and ready names, and the revisions and traffic from the report. |
| StatusMapping.RevisionsToModel | api/v1/status_test.go:87-107 | Revisions keep their length and order. Each keeps its name, available replicas, docker image, generation, rollout status and reason, and its problems in order with message and count. |
| StatusMapping.RevisionsFromModel | api/v1/status_test.go:179-206 | The same field-by-field, order-preserving copy in the storing direction. |
| StatusMapping.TrafficListToModel | api/v1/status_test.go:78-85 | Traffic entries keep length and order, each with its revision name, optional percent and tag. |
| StatusMapping.TrafficListFromModel | api/v1/status_test.go:192-199 | The same copy of traffic entries in the storing direction. |
| StatusMapping.ProblemsToModel | api/v1/status_test.go:102-107 | Problems keep length, order, message and count. |
| StatusMapping.ProblemsFromModel | api/v1/status_test.go:201-206 | The same copy of problems in the storing direction. |
| StatusMapping.RevisionsRoundTrip | pkg/core/deployment_types.go:64-77 | Mapping domain revisions to the API and back gives them back unchanged. |
| StatusMapping.ModelRevisionsRoundTrip | api/v1/status_test.go:128-154 | Mapping API revisions to the domain and back gives them back unchanged. |
| StatusMapping.TrafficRoundTrip | pkg/core/deployment_types.go:58-62 | Mapping domain traffic entries to the API and back is the identity, absent percents included. |
| StatusMapping.ModelTrafficRoundTrip | api/v1/status_test.go:156-167 | Mapping API traffic entries to the domain and back is the identity. |
| StatusMapping.ProblemsRoundTrip | pkg/core/deployment_types.go:74-77 | Mapping domain problems to the API and back is the identity. |
| StatusMapping.ModelProblemsRoundTrip | api/v1/status_test.go:136-145 | Mapping API problems to the domain and back is the identity. |
| StatusMapping.StoredReportIsStatus | pkg/core/deployment_types.go:44-56 | Reporting a stored status and storing the report again gives the same status, with only the timestamp changed to the current time. |
| StatusMapping.ReportedStoredStatus | api/v1/status_test.go:123-207 | Storing a cluster's report and then reporting the deployment returns exactly that report, with the deployment's name, stage and generation. |
| StatusMapping.NilStatusExample | api/v1/status_test.go:110-121 | A deployment without a status maps without failure, keeps its name and stage, and reports no revisions and no traffic. |

## Left out

- The `sync.Mutex` with `Lock`/`Unlock` is concurrency and is not modelled. `Commit` itself does not take the lock; callers are expected to hold it.
- The 30-second git timeout, process execution (`execWithContext`), `os.Stat`, `util.EnsureDir` and `ioutil.ReadDir` are I/O. Their outcomes are oracle parameters.
- `processFiles` and `isNoChangesErr` are not part of this model. They are functions in `Host`. `processFiles` sees the command log and the local directory; its effect on the working tree is not modelled.
- `exec.CommandContext` looks up the `git` binary on the path. The model records the command name as `git` (which is what `cmd.Args[0]` holds) and leaves out the path lookup.
- `fmt.Sprintf("git %s", args)` formats the argument slice in brackets. `GitRepo.RepoError.Message` renders it as `git [a b c]: cause`. The model keeps the `errors.Wrap` shape but not the Go error types.
- The serialization error of `renderKubeResources` formats the resource's `GetObjectKind()` value with `%q`. How Go prints that value is not modelled. `Render.KubeResource.objectKindQuoted` holds the resulting text, and `Render.RenderError.Message` puts it into the error message.
- `util.ToYaml` is a foreign serializer. It is the `Serializer` parameter, which may fail.
- For `filepath.Join`, the model skips empty segments and joins the rest with `/`. It does not model `Clean` (removing `.`, `..` and doubled slashes); segments are assumed free of them.
- `strings.ToLower` is modelled for ASCII letters only; Unicode case mapping is left out.
- The render paths use a `Deployment` with `DeploymentMeta` (stage, namespace, name) and `App`. That is not the `core.Deployment` in pkg/core/deployment_types.go. `Render.Deployment` models the fields render.go uses.
- The status mapping's implementation file and the API model package are not part of this model. `StatusModel` gives the API types the shapes the test uses. A deployment without a status is mapped to the zero report (`StatusModel.NoReport`); the test pins only its name and stage. The storing direction also copies each revision's name, which the test does not check.
- The test names the revision counters `RiserGeneration`/`ObservedRiserGeneration`, while pkg/core names them `RiserRevision`/`ObservedRiserRevision`. The model treats them as the same fields.
- `mergeValidationErrors` is not part of this model. The errors are an ordered list of (position, field, message). So ozzo's keyed map (one message per key, printed in key order) is not modelled, and the duplicate error and a field error on the same field of the same rule both appear.
- The ozzo-validation messages are the library's default English texts. Message templates, translation and the `validation.Errors` formatting are left out.
- RolloutValidation.Validate: the percentage sum is an unbounded integer, so Go `int` overflow on extremely large percents is not modelled.
- `validation.Validate(&rolloutRequest)` in the handler is modelled as the request's own `Validate`. The elements of the traffic slice are not validated again, because `TrafficRule.Validate` has a pointer receiver.
- In `PutRollout`, the echo binding, the environment service, the rollout service and the git committer are outcome parameters. HTTP and JSON encoding are left out.
- The JSON and SQL `Value`/`Scan` hooks of pkg/core/deployment_types.go are serialization adapters and are not modelled. `DeploymentContext` and `DeploymentConfig`'s use by other services are outside these paths.
