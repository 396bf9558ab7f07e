// Generation of test source and CI job descriptors for an upgrade scenario
// (scenarioUpgrade.GenerateTests). Template text, YAML serialisation and the
// naming helpers are not part of this model: they are supplied as functions.

module Generator {
  import opened Types

  newtype byte = x: int | 0 <= x < 256

  datatype Result<T> = Ok(value: T) | Err(msg: string)

  /** GeneratorTypeGo, GeneratorTypeYAML, or any other value of the enum. */
  datatype GeneratorType = GeneratorGo | GeneratorYAML | GeneratorOther(code: int)

  /** A CI job configuration; every setting other than the environment is carried through untouched. */
  datatype ProwConfig = ProwConfig(environ: seq<EnvVar>, settings: map<string, string>)

  /** One record handed to the test-source template. */
  datatype TemplateData = TemplateData(
    infra: string,
    scenario: string,
    fromVersion: string,
    toVersion: string,
    testTitle: string)

  /** A CI job, represented by the arguments newProwJob is called with. */
  datatype ProwJob = ProwJob(name: string, labels: map<string, string>, testTitle: string, config: ProwConfig)

  /**
   * The library calls and helpers the generator depends on: titleize,
   * pullProwJobName, parsing and executing the fixed test-source template,
   * and yaml.Marshal.
   */
  datatype Collaborators = Collaborators(
    titleize: string -> string,
    pullProwJobName: seq<string> -> string,
    render: seq<TemplateData> -> Result<seq<byte>>,
    marshal: seq<ProwJob> -> Result<seq<byte>>)

  /**
   * An io.Writer as a value: what it holds so far, how many bytes a write
   * takes before it stops short, and the error a write reports, if any.
   */
  datatype Writer = Writer(contents: seq<byte>, accepts: nat, failure: Option<string>)

  datatype WriteResult = WriteResult(n: nat, err: Option<string>, writer: Writer)

  /** Write(buf): takes as many bytes as the writer accepts and reports its error. */
  function Write(w: Writer, buf: seq<byte>): (r: WriteResult)
    ensures r.n <= |buf|
    ensures r.n < |buf| <==> w.accepts < |buf|
    ensures r.writer.contents == w.contents + buf[..r.n]
    ensures r.err == w.failure
    ensures r.writer.accepts == w.accepts && r.writer.failure == w.failure
  {
    var n := if w.accepts < |buf| then w.accepts else |buf|;
    WriteResult(n, w.failure, w.(contents := w.contents + buf[..n]))
  }

  datatype GenError =
    | VersionCount                          // "expected only 2 versions"
    | TemplateError(msg: string)
    | MarshalError(msg: string)
    | WriteError(msg: string)
    | ShortWrite(expected: nat, wrote: nat) // "wrong number of bytes written"
    | UnknownGenerator(code: int)           // "unknown generator type"

  /** The error GenerateTests returns, if any, and the writer afterwards. */
  datatype Generated = Generated(err: Option<GenError>, writer: Writer)

  /**
   * The title of the generated test function, built from the infrastructure
   * name, the scenario name and the two versions. It starts with "Test", so
   * the Go test runner picks the generated function up.
   */
  function TestTitle(c: Collaborators, infraName: string, scenarioName: string, from: string, to: string): (title: string)
    ensures |title| >= 4 && title[..4] == "Test"
  {
    "Test" + c.titleize(infraName) + c.titleize(scenarioName) + "From" + c.titleize(from) + "_To" + c.titleize(to)
  }

  /**
   * The single template record and the single CI job GenerateTests builds
   * for the version pair (versions[0], versions[1]).
   */
  function Artifacts(c: Collaborators, infra: Infra, scenario: string, versions: seq<string>, cfg: ProwConfig)
    : (r: (seq<TemplateData>, seq<ProwJob>))
    requires |versions| == 2
    ensures |r.0| == 1 && |r.1| == 1
    ensures r.0[0].testTitle == r.1[0].testTitle == TestTitle(c, infra.name, scenario, versions[0], versions[1])
    ensures r.0[0].infra == infra.name && r.0[0].scenario == scenario
    ensures r.0[0].fromVersion == versions[0] && r.0[0].toVersion == versions[1]
    ensures r.1[0].name == c.pullProwJobName([infra.name, scenario, "from", versions[0], "to", versions[1]])
    ensures r.1[0].labels == infra.labels
    ensures r.1[0].config.environ == infra.environ && r.1[0].config.settings == cfg.settings
  {
    var from, to := versions[0], versions[1];
    var title := TestTitle(c, infra.name, scenario, from, to);
    var data := [TemplateData(infra.name, scenario, from, to, title)];
    var jobCfg := cfg.(environ := infra.environ);
    var jobs := [ProwJob(c.pullProwJobName([infra.name, scenario, "from", from, "to", to]), infra.labels, title, jobCfg)];
    (data, jobs)
  }

  /** YAML mode succeeds exactly when marshalling succeeds and the writer takes the whole buffer without error. */
  predicate YamlWriteSucceeds(buf: Result<seq<byte>>, w: Writer)
  {
    buf.Ok? && w.failure.None? && |buf.value| <= w.accepts
  }

  /**
   * GenerateTests: validate the version list, build the record and the job,
   * then write either the rendered test source or the marshalled jobs.
   */
  function Generate(c: Collaborators, infra: Infra, scenario: string, versions: seq<string>,
                    gen: GeneratorType, cfg: ProwConfig, w: Writer): (g: Generated)
    // a wrong version count is reported before anything is built or written
    ensures |versions| != 2 ==> g == Generated(Some(VersionCount), w)
    // an unknown generator type writes nothing
    ensures gen.GeneratorOther? ==> g.writer == w && g.err.Some?
    ensures gen.GeneratorOther? && |versions| == 2 ==> g.err == Some(UnknownGenerator(gen.code))
    // whatever is written is a prefix of the one buffer the mode produces
    ensures |versions| == 2 && gen.GeneratorGo? ==>
              var buf := c.render(Artifacts(c, infra, scenario, versions, cfg).0);
              (buf.Err? ==> g == Generated(Some(TemplateError(buf.msg)), w)) &&
              (buf.Ok? ==> g.writer == Write(w, buf.value).writer &&
                           (g.err.None? <==> w.failure.None?))
    ensures |versions| == 2 && gen.GeneratorYAML? ==>
              var buf := c.marshal(Artifacts(c, infra, scenario, versions, cfg).1);
              (buf.Err? ==> g == Generated(Some(MarshalError(buf.msg)), w)) &&
              (buf.Ok? ==> g.writer == Write(w, buf.value).writer) &&
              (g.err.None? <==> YamlWriteSucceeds(buf, w))
    // a YAML run that reports success has written the whole marshalled buffer
    ensures |versions| == 2 && gen.GeneratorYAML? && g.err.None? ==>
              g.writer.contents == w.contents + c.marshal(Artifacts(c, infra, scenario, versions, cfg).1).value
  {
    if |versions| != 2 then Generated(Some(VersionCount), w)
    else
      var (data, jobs) := Artifacts(c, infra, scenario, versions, cfg);
      match gen
      case GeneratorGo =>
        (match c.render(data)
         case Err(msg) => Generated(Some(TemplateError(msg)), w)
         case Ok(buf) =>
           var wr := Write(w, buf);
           if wr.err.Some? then Generated(Some(WriteError(wr.err.value)), wr.writer)
           else Generated(None, wr.writer))
      case GeneratorYAML =>
        (match c.marshal(jobs)
         case Err(msg) => Generated(Some(MarshalError(msg)), w)
         case Ok(buf) =>
           var wr := Write(w, buf);
           if wr.err.Some? then Generated(Some(WriteError(wr.err.value)), wr.writer)
           else if wr.n != |buf| then Generated(Some(ShortWrite(|buf|, wr.n)), wr.writer)
           else Generated(None, wr.writer))
      case GeneratorOther(code) => Generated(Some(UnknownGenerator(code)), w)
  }

  /**
   * A YAML write that the writer cuts short without an error is reported as
   * a short write with both byte counts, not as success.
   */
  lemma ShortYamlWriteIsAnError(c: Collaborators, infra: Infra, scenario: string, versions: seq<string>,
                                cfg: ProwConfig, w: Writer)
    requires |versions| == 2
    requires c.marshal(Artifacts(c, infra, scenario, versions, cfg).1).Ok?
    requires w.failure.None?
    requires w.accepts < |c.marshal(Artifacts(c, infra, scenario, versions, cfg).1).value|
    ensures Generate(c, infra, scenario, versions, GeneratorYAML, cfg, w).err
            == Some(ShortWrite(|c.marshal(Artifacts(c, infra, scenario, versions, cfg).1).value|, w.accepts))
  {
  }

  /**
   * The generated output depends on the infrastructure only through its
   * name, so two infrastructures with the same name give byte-identical
   * test source; in particular regenerating with the same inputs yields the
   * same bytes.
   */
  lemma SourceDependsOnlyOnKey(c: Collaborators, i1: Infra, i2: Infra, scenario: string, versions: seq<string>,
                               cfg1: ProwConfig, cfg2: ProwConfig, w: Writer)
    requires i1.name == i2.name
    ensures Generate(c, i1, scenario, versions, GeneratorGo, cfg1, w)
            == Generate(c, i2, scenario, versions, GeneratorGo, cfg2, w)
  {
    if |versions| == 2 {
      assert Artifacts(c, i1, scenario, versions, cfg1).0 == Artifacts(c, i2, scenario, versions, cfg2).0;
    }
  }
}
