/** The deployment workflow as functions on the installer's observable state:
    what each step does to the stage cursor, the error context, the temporary
    files, the requests made of the operating system and the console output,
    and how it ends. The Install module's class runs the same workflow in place
    and is proved to agree with these functions. */
module Deployment {
  import opened HResults
  import opened Packages
  import opened Applicability
  import opened ErrorReport

  /** The installer's option flags. */
  datatype Options = Options(quiet: bool, dryRun: bool, installPackages: bool, installLicenses: bool)

  /** How a deployment-service operation ended after the installer waited for
      it: Completed, or not, with the error code, extended error code, error
      text and activity id of its result. */
  datatype DeploymentOutcome =
    | Completed
    | NotCompleted(errorCode: HResult, extendedErrorCode: HResult, errorText: string, activityId: Guid)

  /** Everything the operating system answers while one package is deployed:
      the manifest identity (or the failure loading the resource or reading the
      manifest), the native machine query, the temporary file name, the copy of
      the image into it, the add, register and provision operations, and
      whether deleting the temporary file succeeds. */
  datatype PackageOs = PackageOs(
    properties: Result<PackageProperties>,
    nativeMachine: Result<UShort>,
    tempFile: Result<string>,
    copy: Completion,
    add: DeploymentOutcome,
    register: DeploymentOutcome,
    provision: DeploymentOutcome,
    deleteSucceeds: bool)

  /** A request made of the operating system. */
  datatype OsRequest =
    | AddByUri(path: string)
    | RegisterByFullName(fullName: string)
    | ProvisionForAllUsers(familyName: string)
    | InstallLicenseById(id: string)

  /** A line written to the console (never in quiet mode). */
  datatype ConsoleLine =
    | InstallingLicense(id: string)
    | InstallResult(hr: HResult, sections: seq<Section>)
    | DeployingPackage(fullName: string)
    | DeploymentResult(hr: HResult, sections: seq<Section>)
    | ProvisioningResult(hr: HResult, sections: seq<Section>)

  /** The installer's observable state: the globals, the temporary files that
      exist, and what has been requested and printed so far. `stageHistory`
      lists every value assigned to the stage cursor, in order. */
  datatype State = State(
    stage: InstallStage,
    stageHistory: seq<InstallStage>,
    currentPackageFullName: Option<string>,
    context: ErrorContext,
    tempFiles: set<string>,
    requests: seq<OsRequest>,
    console: seq<ConsoleLine>)

  /** The state after a step, and the step's result. */
  datatype Step<T> = Step(state: State, result: T)

  /** The globals as the program starts, with the given temporary files present:
      no stage, no package, an empty error context, and nothing requested or
      printed yet. */
  function Initial(tempFiles: set<string>): (s: State)
    ensures s.stage == None && s.stageHistory == [] && s.currentPackageFullName == Nothing
    ensures s.context == NO_ERROR && s.tempFiles == tempFiles
    ensures s.requests == [] && s.console == []
  {
    State(None, [], Nothing, NO_ERROR, tempFiles, [], [])
  }

  /** `t` is `s` with only more history, requests and output appended. */
  predicate Extends(s: State, t: State)
  {
    s.stageHistory <= t.stageHistory && s.requests <= t.requests && s.console <= t.console
  }

  function SetStage(s: State, stage: InstallStage): State
  {
    s.(stage := stage, stageHistory := s.stageHistory + [stage])
  }

  function Request(s: State, request: OsRequest): State
  {
    s.(requests := s.requests + [request])
  }

  function Show(s: State, quiet: bool, line: ConsoleLine): State
  {
    if quiet then s else s.(console := s.console + [line])
  }

  /** The guard at line 56 of the installer, as written: it compares the
      operation's HRESULT with the bare Win32 code, which only a success code
      can equal. */
  predicate IsAlreadyExistsAsWritten(code: HResult)
    ensures IsAlreadyExistsAsWritten(code) ==> Succeeded(code)
  {
    code as int == ERROR_PACKAGE_ALREADY_EXISTS
  }

  /** The guard as intended: the HRESULT form of ERROR_PACKAGE_ALREADY_EXISTS,
      a failure code carrying that Win32 code. */
  predicate IsAlreadyExists(code: HResult)
    ensures IsAlreadyExists(code) ==>
              Failed(code) && Facility(code) == FACILITY_WIN32 && Code(code) == ERROR_PACKAGE_ALREADY_EXISTS
  {
    code == HR_PACKAGE_ALREADY_EXISTS
  }

  /** RegisterPackage: moves the cursor to RegisterPackage, asks the service to
      register the package by full name; a failure fills all three error fields
      and returns the operation's error code. */
  function Register(s: State, fullName: string, op: DeploymentOutcome): (r: Step<HResult>)
    ensures Extends(s, r.state)
  {
    var s1 := Request(SetStage(s, RegisterPackage), RegisterByFullName(fullName));
    match op
    case Completed => Step(s1, S_OK)
    case NotCompleted(code, extended, text, activity) =>
      Step(s1.(context := ErrorContext(extended, text, activity)), code)
  }

  /** AddPackage: asks the service to add the package from `path`. "Already
      exists" falls back to registration by full name; any other failure fills
      all three error fields and returns the add operation's error code. */
  function Add(s: State, path: string, fullName: string, add: DeploymentOutcome,
               register: DeploymentOutcome): (r: Step<HResult>)
    ensures Extends(s, r.state)
  {
    var s1 := Request(s, AddByUri(path));
    match add
    case Completed => Step(s1, S_OK)
    case NotCompleted(code, extended, text, activity) =>
      if IsAlreadyExists(code) then
        var registered := Register(s1, fullName, register);
        Step(registered.state, if Failed(registered.result) then registered.result else S_OK)
      else
        Step(s1.(context := ErrorContext(extended, text, activity)), code)
  }

  /** AddPackage with the guard exactly as written at line 56
      (IsAlreadyExistsAsWritten); the rest of the model uses Add. */
  function AddAsWritten(s: State, path: string, fullName: string, add: DeploymentOutcome,
                        register: DeploymentOutcome): (r: Step<HResult>)
    ensures Extends(s, r.state)
  {
    var s1 := Request(s, AddByUri(path));
    match add
    case Completed => Step(s1, S_OK)
    case NotCompleted(code, extended, text, activity) =>
      if IsAlreadyExistsAsWritten(code) then
        var registered := Register(s1, fullName, register);
        Step(registered.state, if Failed(registered.result) then registered.result else S_OK)
      else
        Step(s1.(context := ErrorContext(extended, text, activity)), code)
  }

  /** ProvisionPackage: asks the service to provision the family for all users;
      a failure records only the activity id and returns the error code. */
  function Provision(s: State, familyName: string, op: DeploymentOutcome): (r: Step<HResult>)
    ensures Extends(s, r.state)
  {
    var s1 := Request(s, ProvisionForAllUsers(familyName));
    match op
    case Completed => Step(s1, S_OK)
    case NotCompleted(code, _, _, activity) =>
      Step(s1.(context := s1.context.(activityId := activity)), code)
  }

  /** The part of DeployPackageFromResource that runs while the temporary file
      `path` exists: stop here in a dry run; otherwise copy the image, add (or
      register) the package and throw on failure, then provision a non-framework
      package without letting its failure escape. */
  function DeployStaged(s: State, props: PackageProperties, path: string, os: PackageOs,
                        options: Options): (r: Step<Completion>)
    ensures Extends(s, r.state)
  {
    if options.dryRun then Step(s, Returned)
    else
      var s1 := SetStage(s, CreatePackageURI);
      match os.copy
      case Threw(hr) => Step(s1, Threw(hr))
      case Returned =>
        var added := Add(SetStage(s1, AddPackage), path, props.fullName, os.add, os.register);
        var s2 := Show(added.state, options.quiet,
                       DeploymentResult(added.result, ShowErrorMessage(added.result, added.state.stage, added.state.context)));
        if Failed(added.result) then Step(s2, Threw(added.result))
        else if props.isFramework then Step(s2, Returned)
        else
          var provisioned := Provision(SetStage(s2, ProvisionPackage), props.familyName, os.provision);
          var s3 := Show(provisioned.state, options.quiet,
                         ProvisioningResult(provisioned.result,
                                            ShowErrorMessage(provisioned.result, provisioned.state.stage, provisioned.state.context)));
          Step(s3, Returned)
  }

  /** The scope guard's cleanup: delete the temporary file; a failed delete is
      only logged and leaves the file in place. */
  function RemoveTempFile(s: State, path: string, deleteSucceeds: bool): (r: State)
    ensures r.tempFiles <= s.tempFiles
    ensures path in r.tempFiles <==> path in s.tempFiles && !deleteSucceeds
    ensures r.tempFiles + {path} == s.tempFiles + {path}
    ensures r == s.(tempFiles := r.tempFiles)
  {
    if deleteSucceeds then s.(tempFiles := s.tempFiles - {path}) else s
  }

  /** DeployPackageFromResource for one catalog entry. */
  function DeployPackage(s: State, resource: ResourcePackageInfo, os: PackageOs, options: Options): (r: Step<Completion>)
    ensures Extends(s, r.state)
  {
    var s1 := SetStage(s, GetPackageProperties);
    match os.properties
    case Err(hr) => Step(s1, Threw(hr))
    case Ok(props) =>
      var s2 := s1.(currentPackageFullName := Some(props.fullName));
      match IsPackageApplicable(props, resource.deploymentBehavior, os.nativeMachine)
      case Err(hr) => Step(s2, Threw(hr))
      case Ok(applicable) =>
        if !applicable then Step(s2, Returned)
        else
          match os.tempFile
          case Err(hr) => Step(s2, Threw(hr))
          case Ok(path) =>
            var s3 := Show(s2.(tempFiles := s2.tempFiles + {path}), options.quiet, DeployingPackage(props.fullName));
            var staged := DeployStaged(s3, props, path, os, options);
            Step(RemoveTempFile(staged.state, path, os.deleteSucceeds), staged.result)
  }

  /** The error context reset DeployPackages performs after each package. */
  function ClearErrorContext(s: State): (r: State)
    ensures r.context.extendedHresult == S_OK && r.context.errorText == [] && r.context.activityId == GUID_NULL
    ensures r == s.(context := r.context)
  {
    s.(context := NO_ERROR)
  }

  /** The DeployPackages loop over the catalog: each package in turn, the error
      context reset after each one that returns, and the first throw ends the
      loop. `os[i]` is what the system answers for `catalog[i]`. */
  function DeployAll(s: State, catalog: seq<ResourcePackageInfo>, os: seq<PackageOs>, options: Options): (r: Step<Completion>)
    requires |os| == |catalog|
    ensures Extends(s, r.state)
    decreases |catalog|
  {
    if catalog == [] then Step(s, Returned)
    else
      var first := DeployPackage(s, catalog[0], os[0], options);
      if first.result.Threw? then first
      else DeployAll(ClearErrorContext(first.state), catalog[1..], os[1..], options)
  }

  /** DeployPackages: the loop runs only when package installation is enabled. */
  function DeployPackages(s: State, catalog: seq<ResourcePackageInfo>, os: seq<PackageOs>, options: Options): (r: Step<Completion>)
    requires |os| == |catalog|
    ensures Extends(s, r.state)
  {
    if options.installPackages then DeployAll(s, catalog, os, options) else Step(s, Returned)
  }

  /** One license outside a dry run: announce it, install it (with result
      `hr`) and report the result. */
  function InstallOne(s: State, id: string, hr: HResult, quiet: bool): (r: State)
    ensures r.requests == s.requests + [InstallLicenseById(id)]
    ensures r.stage == s.stage && r.stageHistory == s.stageHistory && r.context == s.context
    ensures r.tempFiles == s.tempFiles && s.console <= r.console
  {
    var s1 := Show(s, quiet, InstallingLicense(id));
    Show(Request(s1, InstallLicenseById(id)), quiet, InstallResult(hr, ShowErrorMessage(hr, s1.stage, s1.context)))
  }

  /** The InstallLicenses loop: announce each license; in a dry run skip it,
      otherwise install it (`results[i]` is what installing `licenses[i]`
      returns), report, and return the first failure. */
  function InstallEach(s: State, licenses: seq<string>, results: seq<HResult>, options: Options): (r: Step<HResult>)
    requires |results| == |licenses|
    ensures Extends(s, r.state)
    decreases |licenses|
  {
    if licenses == [] then Step(s, S_OK)
    else if options.dryRun then
      InstallEach(Show(s, options.quiet, InstallingLicense(licenses[0])), licenses[1..], results[1..], options)
    else
      var s2 := InstallOne(s, licenses[0], results[0], options.quiet);
      if Failed(results[0]) then Step(s2, results[0])
      else InstallEach(s2, licenses[1..], results[1..], options)
  }

  /** InstallLicenses: does anything only when license processing is compiled
      in (`processLicenses`) and the InstallLicenses option is set. */
  function InstallLicenses(s: State, licenses: seq<string>, results: seq<HResult>, options: Options,
                           processLicenses: bool): (r: Step<HResult>)
    requires |results| == |licenses|
    ensures Extends(s, r.state)
  {
    if processLicenses && options.installLicenses then
      InstallEach(SetStage(s, InstallLicense), licenses, results, options)
    else Step(s, S_OK)
  }

  /** Deploy: licenses first, then packages; the first failure is returned and
      an exception escaping the package loop becomes its HRESULT. */
  function Deploy(s: State, licenses: seq<string>, licenseResults: seq<HResult>,
                  catalog: seq<ResourcePackageInfo>, os: seq<PackageOs>, options: Options,
                  processLicenses: bool): (r: Step<HResult>)
    requires |licenseResults| == |licenses| && |os| == |catalog|
    ensures Extends(s, r.state)
  {
    var licensed := InstallLicenses(s, licenses, licenseResults, options, processLicenses);
    if Failed(licensed.result) then licensed
    else
      var deployed := DeployPackages(licensed.state, catalog, os, options);
      Step(deployed.state, if deployed.result.Threw? then deployed.result.hr else S_OK)
  }
}
