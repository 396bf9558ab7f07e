# KubeOne end-to-end upgrade scenario, modelled in Dafny

This project models the upgrade scenario of KubeOne's second-generation
end-to-end tests (`testv2/e2e/scenario_upgrade.go`). The scenario
installs a cluster with a pinned older KubeOne release (1.4.6) at the first
version, runs `kubeone apply` at the first and then the second version,
then opens a `kubeone proxy` tunnel. Through that tunnel it waits for the
nodes and runs the cloud-provider tests and a conformance-lite Sonobuoy
run. The same scenario also generates Go test source or Prow CI job
descriptors for its version pair.

Every external step is abstract. The build, the download, the install, each
apply, the proxy start, the node wait, the cloud-provider tests, Sonobuoy
and the proxy's exit status are success/failure outcomes the caller supplies
(`Upgrade.Outcomes`). A run returns the trace of events it performed and a
verdict.

- `types.dfy` (module `Types`): the infrastructure handle.
- `kubeone.dfy` (module `Kubeone`): the option list and the binary descriptor built by `kubeone()`.
- `generator.dfy` (module `Generator`): `GenerateTests` as a pure function of the scenario,
  the generator type, the CI config, the library collaborators and a writer value.
- `sequencing.dfy` (module `Sequencing`): how a run proceeds.
  - Steps run fail-fast: `t.Fatalf` ends the test at once.
  - Deferred calls run last-in first-out on every exit, as Go's `runtime.Goexit` does.
  - The specification of a run is `ExpectedTrace`: the steps of its plan up to and including the first
    failing one, followed by cancel-then-wait exactly when the proxy step succeeded.
- `scenario_upgrade.dfy` (module `Upgrade`): the class `ScenarioUpgrade`.
  - Its fields are the Go struct's fields.
  - `SetInfra` and `SetVersions` update them.
  - `Run`, `Upgrade` and `Test` are imperative methods, each proved against the run plan.
  - Lemmas state the properties of the plan.

Titleize, `pullProwJobName`, the test-source template (parse and execute),
`yaml.Marshal` and `renderManifest` are collaborators that are not part of
this model. They are passed in as function values (`Generator.Collaborators`,
`Kubeone.Harness`). `newProwJob` is represented by the record of the
arguments it is called with (`Generator.ProwJob`). The global flags
`kubeoneVerboseFlag` and `credentialsFlag` are fields of `Kubeone.Harness`.

Two facts about the code shape the model:
- The scenario applies only at `versions[0]` and `versions[1]`, however long the version list is;
  `Upgrade.OnlyFirstTwoVersionsUsed` states this.
- The scenario never checks that an infrastructure or a version list was set. It indexes
  `versions[0]` and `versions[1]` and would panic on a shorter list, so `Run`, `Upgrade` and `Test`
  require at least two versions.

## Model

| member | source | states |
|---|---|---|
| Kubeone.Options | testv2/e2e/scenario_upgrade.go:69-77 | the option list holds the verbose option iff the verbose flag is set, the credentials option iff the credentials string is non-empty, nothing else, and verbose comes before credentials |
| Upgrade.ScenarioUpgrade.Kubeone | testv2/e2e/scenario_upgrade.go:68-89 | the descriptor uses the infrastructure's provisioning path, the manifest rendered with the requested version, and the option list `Options` specifies |
| Upgrade.ScenarioUpgrade.SetInfra | testv2/e2e/scenario_upgrade.go:42-44 | the infrastructure becomes the given one; name, manifest path and versions are unchanged |
| Upgrade.ScenarioUpgrade.SetVersions | testv2/e2e/scenario_upgrade.go:46-48 | the version list becomes the given one; the other fields are unchanged |
| Generator.TestTitle | testv2/e2e/scenario_upgrade.go:166-171 | the generated test name starts with "Test" |
| Generator.Artifacts | testv2/e2e/scenario_upgrade.go:143-190 | exactly one template record and one CI job; both carry the same title, built from infra name, scenario name, versions[0] and versions[1]; the record carries from = versions[0] and to = versions[1]; the job is named from the same key, uses the infra's labels and has its environment replaced by the infra's, other settings kept |
| Generator.Write | testv2/e2e/scenario_upgrade.go:206 | a write appends a prefix of the buffer, short exactly when the writer accepts fewer bytes than the buffer holds, and returns the writer's error |
| Upgrade.ScenarioUpgrade.GenerateTests | testv2/e2e/scenario_upgrade.go:138-219 | for this scenario's name, infrastructure and versions: a version list whose length is not 2 fails with the version-count error and writes nothing; an unknown generator type fails and writes nothing; a successful YAML run has appended the whole marshalled job list |
| Generator.Generate | testv2/e2e/scenario_upgrade.go:138-219 | a version list whose length is not 2 fails with the version-count error and leaves the writer untouched; an unknown generator type fails and writes nothing; Go mode writes the rendered records and fails iff the writer fails; YAML mode writes the marshalled jobs once and succeeds iff marshalling succeeds and the writer takes the whole buffer without error, in which case exactly that buffer was appended |
| Generator.ShortYamlWriteIsAnError | testv2/e2e/scenario_upgrade.go:206-213 | a YAML write the writer cuts short without an error is reported as a short write with both byte counts |
| Generator.SourceDependsOnlyOnKey | testv2/e2e/scenario_upgrade.go:166-179 | the generated test source depends on the infrastructure only through its name and not on the CI config, so regenerating from the same key gives the same bytes |
| Sequencing.FailIndexIsFirstFailure | testv2/e2e/scenario_upgrade.go:51-53 | the first failing index has only successful steps before it and a failing step at it |
| Sequencing.VerdictIsFirstFailure | testv2/e2e/scenario_upgrade.go:50-66 | a run passes iff every step succeeds, and otherwise fails at a failing step all of whose predecessors succeeded |
| Sequencing.AttemptIsPrefix | testv2/e2e/scenario_upgrade.go:50-66 | the events of a run are the plan's events in plan order |
| Sequencing.AttemptConcat | testv2/e2e/scenario_upgrade.go:63-65 | running two phases in sequence runs the second only if the first passed |
| Sequencing.SequentialPhases | testv2/e2e/scenario_upgrade.go:63-65 | install, upgrade and test run in sequence, each only after the previous one passed; the teardown belongs to the test phase; the verdict is that of the first failing phase |
| Sequencing.RunDeferred | testv2/e2e/scenario_upgrade.go:117-123 | deferred calls run last registered first |
| Sequencing.ProxyDefersTearDown | testv2/e2e/scenario_upgrade.go:117-123 | registering the wait first and the cancellation second gives cancel-then-wait, with the wait's error only logged |
| Sequencing.AppliedInMiddlePhase | testv2/e2e/scenario_upgrade.go:63-65 | when only the middle phase applies, the applied versions are those of its attempted steps, or none if the first phase failed |
| Sequencing.TeardownExactlyOnce | testv2/e2e/scenario_upgrade.go:112-123 | for any plan, Kill and Wait occur exactly once each when the proxy step succeeded and never otherwise, right after the attempted steps |
| Upgrade.ScenarioUpgrade.Upgrade | testv2/e2e/scenario_upgrade.go:91-105 | the trace and verdict are those of the fail-fast upgrade plan (apply at versions[0], then at versions[1]) |
| Upgrade.ScenarioUpgrade.Test | testv2/e2e/scenario_upgrade.go:107-136 | the trace and verdict are those of the fail-fast test plan followed by the teardown iff the proxy started |
| Upgrade.ScenarioUpgrade.Run | testv2/e2e/scenario_upgrade.go:50-66 | the trace is the run plan attempted fail-fast plus teardown iff the proxy started, and the verdict is the plan's |
| Upgrade.SetupTrace | testv2/e2e/scenario_upgrade.go:50-63 | build, then download of the 1.4.6 release, then install at versions[0], stopping at the first failure |
| Upgrade.UpgradeTrace | testv2/e2e/scenario_upgrade.go:91-105 | apply at versions[0], and at versions[1] only if the first apply succeeded |
| Upgrade.TestTrace | testv2/e2e/scenario_upgrade.go:107-136 | proxy start, then node wait, cloud-provider tests, Sonobuoy, stopping at the first failure; teardown after any exit once the proxy started, none if it failed to start |
| Upgrade.RunTrace | testv2/e2e/scenario_upgrade.go:50-66 | a run is the setup, the upgrade if the setup passed, and the test phase if the upgrade passed |
| Upgrade.RunVerdict | testv2/e2e/scenario_upgrade.go:50-66 | a run fails at the first failing setup step, else with the upgrade's failure, else with the test phase's verdict |
| Upgrade.BuildFailureStopsRun | testv2/e2e/scenario_upgrade.go:51-53 | a failing build ends the run with only the build in the trace, before any cluster operation |
| Upgrade.AppliesFirstTwoVersionsInOrder | testv2/e2e/scenario_upgrade.go:96-104 | the applied versions are [], [versions[0]] or [versions[0], versions[1]] in that order; the second is applied only when the first apply succeeded |
| Upgrade.UpgradeApplied | testv2/e2e/scenario_upgrade.go:96-104 | the upgrade phase applies versions[0], then versions[1] if the first apply succeeded |
| Upgrade.ProxyTornDownOnEveryExit | testv2/e2e/scenario_upgrade.go:112-123 | in a whole run, Kill and Wait occur exactly once each iff everything up to and including the proxy start succeeded, appended after the last attempted step |
| Upgrade.PassesIffAllStepsSucceed | testv2/e2e/scenario_upgrade.go:50-136 | a run passes iff every external step succeeds, whatever the proxy's exit status |
| Upgrade.SuccessfulRun | testv2/e2e/scenario_upgrade.go:50-136 | when every step succeeds the run performs build, download of 1.4.6, install at versions[0], apply at versions[0] and versions[1], proxy start, node wait, cloud-provider tests and Sonobuoy in that order, and ends with cancel-then-wait |
| Upgrade.WaitErrorNeverFails | testv2/e2e/scenario_upgrade.go:117-122 | the proxy's exit error changes neither the run plan nor the verdict; the trace with a failing wait is the trace with a clean wait plus one logged error, present exactly when the proxy was started |
| Sequencing.WaitErrorOnlyLogged | testv2/e2e/scenario_upgrade.go:117-122 | for any plan, a failing wait adds only a logged error after the teardown, and only when the proxy step was reached and succeeded |
| Upgrade.OnlyFirstTwoVersionsUsed | testv2/e2e/scenario_upgrade.go:96-108 | versions after the second do not change the run plan |

## Left out

- Subprocesses, the network, the Kubernetes client, Sonobuoy and the cloud-provider tests are left out. They are I/O; each is one success/failure outcome in `Upgrade.Outcomes`.
- `time.Sleep` after the proxy start and the `t.Logf` of the proxy URL are left out. The proxy runs concurrently; only the order of events is modelled.
- Failures of `dynamicClientRetriable` are not modelled separately. They end the run at the same point as a failing cloud-provider test, so they fold into that step's outcome.
- `renderManifest` is assumed to succeed. Its own `t.Fatalf` path is not part of this model.
- `scenarioInstall.install` is one Install event; its internal steps are not part of this model.
- The index-out-of-range panic for fewer than two versions is not modelled: `Run`, `Upgrade` and `Test` require at least two versions.
- The error strings are not modelled. Generator errors are the structured values of `Generator.GenError`.
- Go mode renders the whole output and then writes it with one write. Partial output from a template that fails part-way is not modelled, and parse and execution errors are one `TemplateError`. Go mode does not check the byte count, as `tpl.Execute` does not.
- The writer is a value passed in and returned, not a shared object.
- The literal template text, `titleize`, `pullProwJobName`, `yaml.Marshal` and `renderManifest` are collaborators supplied as functions. Their contents are not part of this model.
- `newProwJob` is not modelled as a function: `Generator.ProwJob` is the record of the arguments it is called with. The labels and environment that `Generator.Artifacts` states are the ones passed to `newProwJob`, not facts about the job it returns.
- `scenarioUpgrade.Title()` (`titleize` of the scenario name) is not a separate member: `Generator.TestTitle` applies `titleize` to the scenario name itself.
- The process-wide scenario and infrastructure registries that generated tests use are not part of this model.
