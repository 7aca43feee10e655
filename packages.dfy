/** The package entities the installer works with: the compiled-in catalog
    entries and the identity read from a package's manifest. */
module Packages {

  /** Windows::System::ProcessorArchitecture, the values a manifest can name. */
  datatype ProcessorArchitecture = X86 | Arm | X64 | Neutral | Arm64 | X86OnArm64 | Unknown

  /** How a catalog entry asks to be deployed. The installer only ever
      compares it with Framework; every other behaviour is folded into
      Application. */
  datatype DeploymentBehavior = Application | Framework

  /** A four-part package version. */
  datatype PackageVersion = PackageVersion(major: nat, minor: nat, build: nat, revision: nat)

  /** Identity and role read from the package manifest. */
  datatype PackageProperties = PackageProperties(
    fullName: string,
    familyName: string,
    architecture: ProcessorArchitecture,
    version: PackageVersion,
    isFramework: bool)

  /** A catalog entry: where the package image lives among the embedded
      resources and how it is to be deployed. */
  datatype ResourcePackageInfo = ResourcePackageInfo(
    id: string,
    resourceType: string,
    deploymentBehavior: DeploymentBehavior)
}
