/** Whether a package's architecture can be installed on the running machine. */
module Applicability {
  import opened HResults
  import opened Packages

  /** An unsigned 16-bit machine type, as IsWow64Process2 reports it. */
  type UShort = x: int | 0 <= x < 0x1_0000

  const IMAGE_FILE_MACHINE_UNKNOWN: UShort := 0
  const IMAGE_FILE_MACHINE_I386: UShort := 0x014c
  const IMAGE_FILE_MACHINE_AMD64: UShort := 0x8664
  const IMAGE_FILE_MACHINE_ARM64: UShort := 0xAA64

  /** The system architecture for the native machine type: three machine types
      are known, every other one is refused with ERROR_NOT_SUPPORTED. */
  function SystemArchitecture(nativeMachine: UShort): (r: Result<ProcessorArchitecture>)
    ensures r == Ok(X86) <==> nativeMachine == IMAGE_FILE_MACHINE_I386
    ensures r == Ok(X64) <==> nativeMachine == IMAGE_FILE_MACHINE_AMD64
    ensures r == Ok(Arm64) <==> nativeMachine == IMAGE_FILE_MACHINE_ARM64
    ensures r.Ok? ==> r.value == X86 || r.value == X64 || r.value == Arm64
    ensures r.Err? ==> r.hr == HR_NOT_SUPPORTED
  {
    if nativeMachine == IMAGE_FILE_MACHINE_I386 then Ok(X86)
    else if nativeMachine == IMAGE_FILE_MACHINE_AMD64 then Ok(X64)
    else if nativeMachine == IMAGE_FILE_MACHINE_ARM64 then Ok(Arm64)
    else Err(HR_NOT_SUPPORTED)
  }

  /** The compatibility relation the resolver implements, stated in one piece:
      a neutral or same-architecture package always runs; a package deployed in
      the framework role also runs on an Arm64 system whatever its architecture,
      and as X86 on an X64 system. */
  predicate Runs(package: ProcessorArchitecture, system: ProcessorArchitecture, frameworkRole: bool)
  {
    package == Neutral
    || package == system
    || (frameworkRole && (system == Arm64 || (system == X64 && package == X86)))
  }

  /** True when the package is a framework or its catalog entry deploys it as one. */
  predicate FrameworkRole(props: PackageProperties, behavior: DeploymentBehavior)
  {
    props.isFramework || behavior == Framework
  }

  /** The resolver. `nativeMachine` is the native machine type reported by
      IsWow64Process2, or the failure that call threw. A neutral package is
      decided before the machine is consulted. */
  function IsPackageApplicable(props: PackageProperties, behavior: DeploymentBehavior,
                               nativeMachine: Result<UShort>): (r: Result<bool>)
    ensures props.architecture == Neutral ==> r == Ok(true)
    ensures props.architecture != Neutral ==>
              (r.Ok? <==> nativeMachine.Ok? && SystemArchitecture(nativeMachine.value).Ok?)
    ensures props.architecture != Neutral && nativeMachine.Err? ==> r == Err(nativeMachine.hr)
    ensures props.architecture != Neutral && nativeMachine.Ok? && SystemArchitecture(nativeMachine.value).Err? ==>
              r == Err(HR_NOT_SUPPORTED)
    ensures r.Ok? && nativeMachine.Ok? && SystemArchitecture(nativeMachine.value).Ok? ==>
              r.value == Runs(props.architecture, SystemArchitecture(nativeMachine.value).value, FrameworkRole(props, behavior))
  {
    if props.architecture == Neutral then Ok(true)
    else if nativeMachine.Err? then Err(nativeMachine.hr)
    else
      var system := SystemArchitecture(nativeMachine.value);
      if system.Err? then Err(system.hr)
      else if props.architecture == system.value then Ok(true)
      else if !props.isFramework && behavior != Framework then Ok(false)
      else if system.value == X64 && props.architecture == X86 then Ok(true)
      else if system.value == Arm64 then Ok(true)
      else Ok(false)
  }

  /** Same architecture as the system is applicable for every kind of package. */
  lemma SameArchitectureApplicable(props: PackageProperties, behavior: DeploymentBehavior, machine: UShort)
    requires SystemArchitecture(machine) == Ok(props.architecture)
    ensures IsPackageApplicable(props, behavior, Ok(machine)) == Ok(true)
  {
  }

  /** A package that is neither a framework nor deployed as one is applicable
      only when it is neutral or matches the system exactly. */
  lemma NonFrameworkNeedsExactMatch(props: PackageProperties, behavior: DeploymentBehavior, machine: UShort)
    requires !FrameworkRole(props, behavior)
    requires SystemArchitecture(machine).Ok?
    ensures IsPackageApplicable(props, behavior, Ok(machine))
            == Ok(props.architecture == Neutral || props.architecture == SystemArchitecture(machine).value)
  {
  }

  /** An X86 framework is applicable on an X64 system; the same package in the
      application role is not. */
  lemma X86FrameworkOnX64(props: PackageProperties, behavior: DeploymentBehavior)
    requires props.architecture == X86
    ensures IsPackageApplicable(props, behavior, Ok(IMAGE_FILE_MACHINE_AMD64)) == Ok(FrameworkRole(props, behavior))
  {
  }

  /** On an Arm64 system every package in the framework role is applicable. */
  lemma Arm64AcceptsEveryFramework(props: PackageProperties, behavior: DeploymentBehavior)
    requires FrameworkRole(props, behavior)
    ensures IsPackageApplicable(props, behavior, Ok(IMAGE_FILE_MACHINE_ARM64)) == Ok(true)
  {
  }

  /** On an X86 system there is no cross-architecture allowance, not even for
      frameworks: only X86 and neutral packages are applicable. */
  lemma X86SystemAcceptsOnlyX86(props: PackageProperties, behavior: DeploymentBehavior)
    ensures IsPackageApplicable(props, behavior, Ok(IMAGE_FILE_MACHINE_I386))
            == Ok(props.architecture == X86 || props.architecture == Neutral)
  {
  }

  /** The framework role only ever widens what is applicable. */
  lemma FrameworkRoleOnlyWidens(props: PackageProperties, machine: Result<UShort>)
    requires IsPackageApplicable(props.(isFramework := false), Application, machine) == Ok(true)
    ensures IsPackageApplicable(props.(isFramework := true), Application, machine) == Ok(true)
    ensures IsPackageApplicable(props, Framework, machine) == Ok(true)
  {
  }

  /** An unknown machine type fails every non-neutral package with
      HRESULT_FROM_WIN32(ERROR_NOT_SUPPORTED). */
  lemma UnknownMachineNotSupported(props: PackageProperties, behavior: DeploymentBehavior, machine: UShort)
    requires props.architecture != Neutral
    requires machine != IMAGE_FILE_MACHINE_I386 && machine != IMAGE_FILE_MACHINE_AMD64 && machine != IMAGE_FILE_MACHINE_ARM64
    ensures IsPackageApplicable(props, behavior, Ok(machine)) == Err(HR_NOT_SUPPORTED)
  {
  }
}
