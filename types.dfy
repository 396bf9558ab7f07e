// Shared values of the end-to-end scenario model: the optional value wrapper
// and the infrastructure handle a scenario is bound to.

module Types {

  datatype Option<+T> = None | Some(value: T)

  /** One environment variable handed to a CI job. */
  datatype EnvVar = EnvVar(name: string, value: string)

  /**
   * An infrastructure handle. It is provisioned and owned elsewhere; the
   * scenario only reads its name, the provisioning state path, the cloud
   * provider, the environment and the scheduling labels.
   */
  datatype Infra = Infra(
    name: string,
    terraformPath: string,
    provider: string,
    environ: seq<EnvVar>,
    labels: map<string, string>)

  /** The zero value a scenario holds before SetInfra is called. */
  const NoInfra: Infra := Infra("", "", "", [], map[])
}
