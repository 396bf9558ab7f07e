// The upgrade scenario: install a cluster with a pinned older kubeone
// release, apply at the first version, upgrade by applying at the second,
// then validate through a kubeone proxy. External steps are abstract: the
// outcome of each is supplied by the caller.

module Upgrade {
  import opened Types
  import opened Kubeone
  import opened Sequencing
  import Generator

  /** The kubeone release the cluster is first installed with. */
  const InitRelease: string := "1.4.6"

  /** Index of the proxy step in RunPlan. */
  const ProxyStep: nat := 5

  /**
   * What the outside world answers to each external step: success or
   * failure of each call, the address the proxy reports, and whether the
   * proxy process exits with an error once it is waited on.
   */
  datatype Outcomes = Outcomes(
    build: bool,
    download: bool,
    install: bool,
    applyFrom: bool,
    applyTo: bool,
    proxy: bool,
    nodesReady: bool,
    cpTests: bool,
    sonobuoy: bool,
    proxyURL: string,
    waitFails: bool)

  function SetupSteps(versions: seq<string>, o: Outcomes): seq<Step>
    requires |versions| >= 1
  {
    [Step(Build, o.build), Step(Download(InitRelease), o.download), Step(Install(versions[0], InitRelease), o.install)]
  }

  function UpgradeSteps(infra: Infra, templatePath: string, versions: seq<string>, h: Harness, o: Outcomes): seq<Step>
    requires |versions| >= 2
  {
    [Step(Apply(versions[0], BinFor(infra.terraformPath, templatePath, h, versions[0])), o.applyFrom),
     Step(Apply(versions[1], BinFor(infra.terraformPath, templatePath, h, versions[1])), o.applyTo)]
  }

  function TestSteps(infra: Infra, templatePath: string, versions: seq<string>, h: Harness, o: Outcomes): seq<Step>
    requires |versions| >= 2
  {
    var k1 := BinFor(infra.terraformPath, templatePath, h, versions[1]);
    [Step(ProxyStart(k1), o.proxy), Step(WaitReady(k1), o.nodesReady),
     Step(CPTests(infra.provider), o.cpTests), Step(Sonobuoy(k1, o.proxyURL), o.sonobuoy)]
  }

  /** Every external step of Run, in source order. */
  function RunPlan(infra: Infra, templatePath: string, versions: seq<string>, h: Harness, o: Outcomes): (plan: seq<Step>)
    requires |versions| >= 2
    ensures |plan| == 9 && plan[ProxyStep].event.ProxyStart?
  {
    SetupSteps(versions, o) + UpgradeSteps(infra, templatePath, versions, h, o) + TestSteps(infra, templatePath, versions, h, o)
  }

  /**
   * The test phase spelled out: the proxy first; once it has started, the
   * node wait, the cloud-provider tests and the conformance run, stopping at
   * the first failure, followed in every case by cancel-then-wait.
   */
  lemma TestTrace(infra: Infra, templatePath: string, versions: seq<string>, h: Harness, o: Outcomes)
    requires |versions| >= 2
    ensures var k1 := BinFor(infra.terraformPath, templatePath, h, versions[1]);
            var steps := TestSteps(infra, templatePath, versions, h, o);
            var td := Teardown(o.waitFails);
            ExpectedTrace(steps, 0, o.waitFails) ==
              if !o.proxy then [ProxyStart(k1)]
              else if !o.nodesReady then [ProxyStart(k1), WaitReady(k1)] + td
              else if !o.cpTests then [ProxyStart(k1), WaitReady(k1), CPTests(infra.provider)] + td
              else [ProxyStart(k1), WaitReady(k1), CPTests(infra.provider), Sonobuoy(k1, o.proxyURL)] + td
    ensures var k1 := BinFor(infra.terraformPath, templatePath, h, versions[1]);
            VerdictOf(TestSteps(infra, templatePath, versions, h, o)) ==
              if !o.proxy then Failed(ProxyStart(k1))
              else if !o.nodesReady then Failed(WaitReady(k1))
              else if !o.cpTests then Failed(CPTests(infra.provider))
              else if !o.sonobuoy then Failed(Sonobuoy(k1, o.proxyURL))
              else Passed
  {
    AttemptFour(TestSteps(infra, templatePath, versions, h, o));
  }

  /** The setup phase fails fast: build, then download, then install. */
  lemma SetupTrace(versions: seq<string>, o: Outcomes)
    requires |versions| >= 1
    ensures var setupTrace := [Build, Download(InitRelease), Install(versions[0], InitRelease)];
            Attempt(SetupSteps(versions, o)) ==
              if !o.build then [Build]
              else if !o.download then [Build, Download(InitRelease)]
              else setupTrace
    ensures VerdictOf(SetupSteps(versions, o)) ==
              if !o.build then Failed(Build)
              else if !o.download then Failed(Download(InitRelease))
              else if !o.install then Failed(Install(versions[0], InitRelease))
              else Passed
  {
    var setup := SetupSteps(versions, o);
    assert setup == [setup[0]] + ([setup[1]] + ([setup[2]] + []));
    AttemptCons(setup[0], [setup[1]] + ([setup[2]] + []));
    AttemptCons(setup[1], [setup[2]] + []);
    AttemptCons(setup[2], []);
  }

  /**
   * A run decomposed into its phases: the three setup steps fail-fast, then
   * the upgrade, then (only if the upgrade passed) the test phase with its
   * own teardown.
   */
  lemma RunTrace(infra: Infra, templatePath: string, versions: seq<string>, h: Harness, o: Outcomes)
    requires |versions| >= 2
    ensures var up := UpgradeSteps(infra, templatePath, versions, h, o);
            var test := TestSteps(infra, templatePath, versions, h, o);
            var setupTrace := [Build, Download(InitRelease), Install(versions[0], InitRelease)];
            ExpectedTrace(RunPlan(infra, templatePath, versions, h, o), ProxyStep, o.waitFails) ==
              if !o.build then [Build]
              else if !o.download then [Build, Download(InitRelease)]
              else if !o.install then setupTrace
              else if VerdictOf(up).Failed? then setupTrace + Attempt(up)
              else setupTrace + Attempt(up) + ExpectedTrace(test, 0, o.waitFails)
  {
    SetupTrace(versions, o);
    SequentialPhases(SetupSteps(versions, o), UpgradeSteps(infra, templatePath, versions, h, o),
                     TestSteps(infra, templatePath, versions, h, o), o.waitFails);
  }

  /** The verdict of a run is that of its first failing phase. */
  lemma RunVerdict(infra: Infra, templatePath: string, versions: seq<string>, h: Harness, o: Outcomes)
    requires |versions| >= 2
    ensures var up := UpgradeSteps(infra, templatePath, versions, h, o);
            var test := TestSteps(infra, templatePath, versions, h, o);
            VerdictOf(RunPlan(infra, templatePath, versions, h, o)) ==
              if !o.build then Failed(Build)
              else if !o.download then Failed(Download(InitRelease))
              else if !o.install then Failed(Install(versions[0], InitRelease))
              else if VerdictOf(up).Failed? then VerdictOf(up)
              else VerdictOf(test)
  {
    SetupTrace(versions, o);
    SequentialPhases(SetupSteps(versions, o), UpgradeSteps(infra, templatePath, versions, h, o),
                     TestSteps(infra, templatePath, versions, h, o), o.waitFails);
  }

  /** The upgrade phase: apply at versions[0], then at versions[1] only if the first apply succeeded. */
  lemma UpgradeTrace(infra: Infra, templatePath: string, versions: seq<string>, h: Harness, o: Outcomes)
    requires |versions| >= 2
    ensures var up := UpgradeSteps(infra, templatePath, versions, h, o);
            var apply0 := Apply(versions[0], BinFor(infra.terraformPath, templatePath, h, versions[0]));
            var apply1 := Apply(versions[1], BinFor(infra.terraformPath, templatePath, h, versions[1]));
            Attempt(up) == (if o.applyFrom then [apply0, apply1] else [apply0]) &&
            VerdictOf(up) == (if !o.applyFrom then Failed(apply0) else if !o.applyTo then Failed(apply1) else Passed)
  {
    var up := UpgradeSteps(infra, templatePath, versions, h, o);
    assert up == [up[0]] + ([up[1]] + []);
    AttemptCons(up[0], [up[1]] + []);
    AttemptCons(up[1], []);
  }

  /** A failing build ends the run before any cluster operation. */
  lemma BuildFailureStopsRun(infra: Infra, templatePath: string, versions: seq<string>, h: Harness, o: Outcomes)
    requires |versions| >= 2 && !o.build
    ensures ExpectedTrace(RunPlan(infra, templatePath, versions, h, o), ProxyStep, o.waitFails) == [Build]
    ensures VerdictOf(RunPlan(infra, templatePath, versions, h, o)) == Failed(Build)
  {
    RunTrace(infra, templatePath, versions, h, o);
    RunVerdict(infra, templatePath, versions, h, o);
  }

  lemma UpgradeApplied(infra: Infra, templatePath: string, versions: seq<string>, h: Harness, o: Outcomes)
    requires |versions| >= 2
    ensures AppliedVersions(Attempt(UpgradeSteps(infra, templatePath, versions, h, o))) ==
              if o.applyFrom then [versions[0], versions[1]] else [versions[0]]
  {
    UpgradeTrace(infra, templatePath, versions, h, o);
    AppliedOfApplies(versions[0], BinFor(infra.terraformPath, templatePath, h, versions[0]),
                     versions[1], BinFor(infra.terraformPath, templatePath, h, versions[1]));
  }

  /**
   * kubeone apply runs at versions[0] and then at versions[1], in that order,
   * the second only when the first succeeded, and at no other version;
   * nothing is applied when the setup failed.
   */
  lemma AppliesFirstTwoVersionsInOrder(infra: Infra, templatePath: string, versions: seq<string>, h: Harness, o: Outcomes)
    requires |versions| >= 2
    ensures AppliedVersions(ExpectedTrace(RunPlan(infra, templatePath, versions, h, o), ProxyStep, o.waitFails)) ==
              if !(o.build && o.download && o.install) then []
              else if !o.applyFrom then [versions[0]]
              else [versions[0], versions[1]]
  {
    var setup := SetupSteps(versions, o);
    var test := TestSteps(infra, templatePath, versions, h, o);
    assert NoApplySteps(setup) && NoApplySteps(test);
    SetupTrace(versions, o);
    UpgradeApplied(infra, templatePath, versions, h, o);
    AppliedInMiddlePhase(setup, UpgradeSteps(infra, templatePath, versions, h, o), test, o.waitFails);
  }

  /**
   * Once the proxy has started, the run cancels it and then waits for it,
   * exactly once each, right after the last attempted step, whichever step
   * ends the run; if the run ends before or at the proxy start, neither
   * happens. (Teardown lists the cancellation before the wait.)
   */
  lemma ProxyTornDownOnEveryExit(infra: Infra, templatePath: string, versions: seq<string>, h: Harness, o: Outcomes)
    requires |versions| >= 2
    ensures var plan := RunPlan(infra, templatePath, versions, h, o);
            var t := ExpectedTrace(plan, ProxyStep, o.waitFails);
            var started := o.build && o.download && o.install && o.applyFrom && o.applyTo && o.proxy;
            Occurrences(t, Kill) == (if started then 1 else 0) &&
            Occurrences(t, Wait) == (if started then 1 else 0) &&
            t == Attempt(plan) + (if started then Teardown(o.waitFails) else [])
  {
    var plan := RunPlan(infra, templatePath, versions, h, o);
    assert NoTeardownSteps(plan);
    TeardownExactlyOnce(plan, ProxyStep, o.waitFails);
    FailIndexIsFirstFailure(plan);
    var started := o.build && o.download && o.install && o.applyFrom && o.applyTo && o.proxy;
    assert plan[0].ok == o.build && plan[1].ok == o.download && plan[2].ok == o.install;
    assert plan[3].ok == o.applyFrom && plan[4].ok == o.applyTo && plan[5].ok == o.proxy;
    assert started <==> ProxyStep < FailIndex(plan);
  }

  /** A run passes exactly when every external step succeeds, whatever the proxy's exit status. */
  lemma PassesIffAllStepsSucceed(infra: Infra, templatePath: string, versions: seq<string>, h: Harness, o: Outcomes)
    requires |versions| >= 2
    ensures VerdictOf(RunPlan(infra, templatePath, versions, h, o)) == Passed <==>
              o.build && o.download && o.install && o.applyFrom && o.applyTo &&
              o.proxy && o.nodesReady && o.cpTests && o.sonobuoy
  {
    RunVerdict(infra, templatePath, versions, h, o);
    UpgradeTrace(infra, templatePath, versions, h, o);
    TestTrace(infra, templatePath, versions, h, o);
  }

  /**
   * A passing run performs every step in source order and ends with
   * cancel-then-wait.
   */
  lemma SuccessfulRun(infra: Infra, templatePath: string, versions: seq<string>, h: Harness, o: Outcomes)
    requires |versions| >= 2
    requires o.build && o.download && o.install && o.applyFrom && o.applyTo
    requires o.proxy && o.nodesReady && o.cpTests && o.sonobuoy
    ensures var k0 := BinFor(infra.terraformPath, templatePath, h, versions[0]);
            var k1 := BinFor(infra.terraformPath, templatePath, h, versions[1]);
            ExpectedTrace(RunPlan(infra, templatePath, versions, h, o), ProxyStep, o.waitFails) ==
              [Build, Download(InitRelease), Install(versions[0], InitRelease),
               Apply(versions[0], k0), Apply(versions[1], k1),
               ProxyStart(k1), WaitReady(k1), CPTests(infra.provider), Sonobuoy(k1, o.proxyURL)]
              + Teardown(o.waitFails)
  {
    RunTrace(infra, templatePath, versions, h, o);
    UpgradeTrace(infra, templatePath, versions, h, o);
    TestTrace(infra, templatePath, versions, h, o);
  }

  /**
   * The proxy's exit error is only logged: the plan and the verdict do not
   * depend on it, and the trace differs only by the logged error after the
   * wait, present exactly when the proxy was started.
   */
  lemma WaitErrorNeverFails(infra: Infra, templatePath: string, versions: seq<string>, h: Harness, o: Outcomes)
    requires |versions| >= 2
    ensures RunPlan(infra, templatePath, versions, h, o)
            == RunPlan(infra, templatePath, versions, h, o.(waitFails := !o.waitFails))
    ensures VerdictOf(RunPlan(infra, templatePath, versions, h, o))
            == VerdictOf(RunPlan(infra, templatePath, versions, h, o.(waitFails := !o.waitFails)))
    ensures var plan := RunPlan(infra, templatePath, versions, h, o);
            ExpectedTrace(plan, ProxyStep, true)
            == ExpectedTrace(plan, ProxyStep, false) + (if ProxyStep < FailIndex(plan) then [WaitErrorLogged] else [])
  {
    WaitErrorOnlyLogged(RunPlan(infra, templatePath, versions, h, o), ProxyStep);
  }

  /** Versions after the second are never used. */
  lemma OnlyFirstTwoVersionsUsed(infra: Infra, templatePath: string, versions: seq<string>, h: Harness, o: Outcomes)
    requires |versions| >= 2
    ensures RunPlan(infra, templatePath, versions, h, o) == RunPlan(infra, templatePath, versions[..2], h, o)
  {
  }

  class ScenarioUpgrade {
    var name: string
    var manifestTemplatePath: string
    var versions: seq<string>
    var infra: Infra

    constructor (name: string, manifestTemplatePath: string)
      ensures this.name == name && this.manifestTemplatePath == manifestTemplatePath
      ensures versions == [] && infra == NoInfra
    {
      this.name := name;
      this.manifestTemplatePath := manifestTemplatePath;
      versions := [];
      infra := NoInfra;
    }

    method SetInfra(infra: Infra)
      modifies this
      ensures this.infra == infra
      ensures name == old(name) && manifestTemplatePath == old(manifestTemplatePath) && versions == old(versions)
    {
      this.infra := infra;
    }

    method SetVersions(versions: seq<string>)
      modifies this
      ensures this.versions == versions
      ensures name == old(name) && manifestTemplatePath == old(manifestTemplatePath) && infra == old(infra)
    {
      this.versions := versions;
    }

    /** kubeone(): grow the option list one flag at a time, render the manifest for the version. */
    method Kubeone(h: Harness, version: string) returns (bin: KubeoneBin)
      ensures bin == BinFor(infra.terraformPath, manifestTemplatePath, h, version)
    {
      var opts: seq<BinOpt> := [];
      if h.verbose {
        opts := opts + [Verbose];
      }
      if h.credentials != "" {
        opts := opts + [Credentials(h.credentials)];
      }
      var manifest := h.renderManifest(manifestTemplatePath, ManifestData(version));
      bin := KubeoneBin(infra.terraformPath, manifest, opts);
    }

    /** upgrade(): apply at versions[0], and only if that succeeds, at versions[1]. */
    method Upgrade(h: Harness, o: Outcomes) returns (trace: seq<Event>, verdict: Verdict)
      requires |versions| >= 2
      ensures trace == Attempt(UpgradeSteps(infra, manifestTemplatePath, versions, h, o))
      ensures verdict == VerdictOf(UpgradeSteps(infra, manifestTemplatePath, versions, h, o))
    {
      var k1 := Kubeone(h, versions[0]);
      trace := [Apply(versions[0], k1)];
      if !o.applyFrom {
        verdict := Failed(Apply(versions[0], k1));
        return;
      }
      k1 := Kubeone(h, versions[1]);
      trace := trace + [Apply(versions[1], k1)];
      if !o.applyTo {
        verdict := Failed(Apply(versions[1], k1));
        return;
      }
      verdict := Passed;
    }

    /**
     * test(): start the proxy, register wait-then-kill as deferred calls,
     * then wait for the nodes, run the cloud-provider tests and the
     * conformance suite; a fatal failure unwinds the deferred calls.
     */
    method Test(h: Harness, o: Outcomes) returns (trace: seq<Event>, verdict: Verdict)
      requires |versions| >= 2
      ensures trace == ExpectedTrace(TestSteps(infra, manifestTemplatePath, versions, h, o), 0, o.waitFails)
      ensures verdict == VerdictOf(TestSteps(infra, manifestTemplatePath, versions, h, o))
    {
      TestTrace(infra, manifestTemplatePath, versions, h, o);
      var k1 := Kubeone(h, versions[1]);
      trace := [ProxyStart(k1)];
      if !o.proxy {
        verdict := Failed(ProxyStart(k1));
        return;
      }
      var defers: seq<Deferred> := [];
      defers := defers + [WaitProxy(o.waitFails)];
      defers := defers + [KillProxy];
      ProxyDefersTearDown(o.waitFails);
      assert defers == [WaitProxy(o.waitFails), KillProxy];

      trace := trace + [WaitReady(k1)];
      assert trace == [ProxyStart(k1), WaitReady(k1)];
      if !o.nodesReady {
        var cleanup := RunDeferred(defers);
        trace := trace + cleanup;
        verdict := Failed(WaitReady(k1));
        return;
      }
      trace := trace + [CPTests(infra.provider)];
      assert trace == [ProxyStart(k1), WaitReady(k1), CPTests(infra.provider)];
      if !o.cpTests {
        var cleanup := RunDeferred(defers);
        trace := trace + cleanup;
        verdict := Failed(CPTests(infra.provider));
        return;
      }
      trace := trace + [Sonobuoy(k1, o.proxyURL)];
      assert trace == [ProxyStart(k1), WaitReady(k1), CPTests(infra.provider), Sonobuoy(k1, o.proxyURL)];
      var cleanup := RunDeferred(defers);
      trace := trace + cleanup;
      verdict := if o.sonobuoy then Passed else Failed(Sonobuoy(k1, o.proxyURL));
    }

    /** Run(): build, install with the pinned release at versions[0], upgrade, test. */
    method Run(h: Harness, o: Outcomes) returns (trace: seq<Event>, verdict: Verdict)
      requires |versions| >= 2
      ensures trace == ExpectedTrace(RunPlan(infra, manifestTemplatePath, versions, h, o), ProxyStep, o.waitFails)
      ensures verdict == VerdictOf(RunPlan(infra, manifestTemplatePath, versions, h, o))
    {
      RunTrace(infra, manifestTemplatePath, versions, h, o);
      RunVerdict(infra, manifestTemplatePath, versions, h, o);
      trace := [Build];
      if !o.build {
        verdict := Failed(Build);
        return;
      }
      trace := trace + [Download(InitRelease)];
      assert trace == [Build, Download(InitRelease)];
      if !o.download {
        verdict := Failed(Download(InitRelease));
        return;
      }
      trace := trace + [Install(versions[0], InitRelease)];
      assert trace == [Build, Download(InitRelease), Install(versions[0], InitRelease)];
      if !o.install {
        verdict := Failed(Install(versions[0], InitRelease));
        return;
      }
      var upTrace, upVerdict := Upgrade(h, o);
      trace := trace + upTrace;
      if upVerdict.Failed? {
        verdict := upVerdict;
        return;
      }
      var testTrace, testVerdict := Test(h, o);
      trace := trace + testTrace;
      verdict := testVerdict;
    }

    /**
     * Generates the Go test source or the CI jobs for this scenario's
     * infrastructure and versions.
     */
    function GenerateTests(c: Generator.Collaborators, gen: Generator.GeneratorType, cfg: Generator.ProwConfig,
                           w: Generator.Writer): (g: Generator.Generated)
      reads this
      // only a pair of versions can be generated; otherwise nothing is written
      ensures |versions| != 2 ==> g == Generator.Generated(Some(Generator.VersionCount), w)
      // an unknown generator type is an error and writes nothing
      ensures gen.GeneratorOther? ==> g.err.Some? && g.writer == w
      // a successful YAML run has written the jobs built from this scenario's key, whole
      ensures |versions| == 2 && gen.GeneratorYAML? && g.err.None? ==>
                c.marshal(Generator.Artifacts(c, infra, name, versions, cfg).1).Ok? &&
                g.writer.contents == w.contents + c.marshal(Generator.Artifacts(c, infra, name, versions, cfg).1).value
    {
      Generator.Generate(c, infra, name, versions, gen, cfg, w)
    }
  }
}
