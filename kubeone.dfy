// The command descriptor of the cluster-management binary: which provisioning
// state and manifest it is run against and which command-line options it gets.

module Kubeone {

  /** withKubeoneVerbose and withKubeoneCredentials. */
  datatype BinOpt = Verbose | Credentials(file: string)

  /** The data the manifest template is rendered with. */
  datatype ManifestData = ManifestData(version: string)

  /** newKubeoneBin(terraformPath, manifestPath, opts...). */
  datatype KubeoneBin = KubeoneBin(terraformPath: string, manifestPath: string, opts: seq<BinOpt>)

  /**
   * What the test harness supplies from outside the scenario: the two
   * command-line flags (verbose, credentials file) and the manifest
   * renderer, which writes the rendered manifest and returns its path.
   */
  datatype Harness = Harness(
    verbose: bool,
    credentials: string,
    renderManifest: (string, ManifestData) -> string)

  /**
   * The option list kubeone() builds: the verbose option exactly when the
   * flag is set, the credentials option exactly when a credentials file is
   * named, nothing else, and verbose first when both are present.
   */
  function Options(verbose: bool, credentials: string): (opts: seq<BinOpt>)
    ensures Verbose in opts <==> verbose
    ensures Credentials(credentials) in opts <==> credentials != ""
    ensures forall o :: o in opts ==> o == Verbose || o == Credentials(credentials)
    ensures forall i, j :: 0 <= i < j < |opts| ==> opts[i] == Verbose && opts[j] == Credentials(credentials)
  {
    (if verbose then [Verbose] else []) + (if credentials != "" then [Credentials(credentials)] else [])
  }

  /** The binary descriptor for one target version. */
  function BinFor(terraformPath: string, manifestTemplatePath: string, h: Harness, version: string): KubeoneBin
  {
    KubeoneBin(terraformPath, h.renderManifest(manifestTemplatePath, ManifestData(version)),
               Options(h.verbose, h.credentials))
  }
}
