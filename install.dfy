/** The installer's process-wide state and the deployment routines that update
    it in place. Every routine is proved to leave the state, and return the
    result, that the Deployment module's function of the same step gives. */
module Install {
  import opened HResults
  import opened Packages
  import opened Applicability
  import opened ErrorReport
  import opened Deployment

  class Installer {
    /** g_installStage */
    var stage: InstallStage
    /** every value assigned to g_installStage, in order (bookkeeping for proofs) */
    ghost var stageHistory: seq<InstallStage>
    /** g_currentPackageFullName */
    var currentPackageFullName: Option<string>
    /** g_deploymentErrorExtendedHresult, g_deploymentErrorText, g_deploymentErrorActivityId */
    var extendedHresult: HResult
    var errorText: string
    var activityId: Guid
    /** the temporary files that exist */
    var tempFiles: set<string>
    /** the requests made of the operating system so far */
    var requests: seq<OsRequest>
    /** what has been written to the console so far */
    var console: seq<ConsoleLine>

    ghost function Snapshot(): State
      reads this
    {
      State(stage, stageHistory, currentPackageFullName, ErrorContext(extendedHresult, errorText, activityId),
            tempFiles, requests, console)
    }

    function Context(): ErrorContext
      reads this
    {
      ErrorContext(extendedHresult, errorText, activityId)
    }

    /** The globals' initial values. */
    constructor (existingTempFiles: set<string>)
      ensures Snapshot() == Initial(existingTempFiles)
    {
      stage := None;
      stageHistory := [];
      currentPackageFullName := Nothing;
      extendedHresult, errorText, activityId := S_OK, "", GUID_NULL;
      tempFiles := existingTempFiles;
      requests := [];
      console := [];
    }

    method MoveTo(next: InstallStage)
      modifies this
      ensures Snapshot() == SetStage(old(Snapshot()), next)
    {
      stage := next;
      stageHistory := stageHistory + [next];
    }

    method Print(quiet: bool, line: ConsoleLine)
      modifies this
      ensures Snapshot() == Show(old(Snapshot()), quiet, line)
    {
      if !quiet {
        console := console + [line];
      }
    }

    method RegisterPackage(fullName: string, op: DeploymentOutcome) returns (hr: HResult)
      modifies this
      ensures stage == InstallStage.RegisterPackage
      ensures op.Completed? ==> hr == S_OK && Context() == old(Context())
      ensures op.NotCompleted? ==>
                hr == op.errorCode && Context() == ErrorContext(op.extendedErrorCode, op.errorText, op.activityId)
      ensures Snapshot() == Register(old(Snapshot()), fullName, op).state
      ensures hr == Register(old(Snapshot()), fullName, op).result
    {
      MoveTo(InstallStage.RegisterPackage);
      requests := requests + [RegisterByFullName(fullName)];
      match op {
        case Completed =>
          hr := S_OK;
        case NotCompleted(code, extended, text, activity) =>
          extendedHresult, errorText, activityId := extended, text, activity;
          hr := code;
      }
    }

    method AddPackage(path: string, props: PackageProperties, add: DeploymentOutcome,
                      register: DeploymentOutcome) returns (hr: HResult)
      modifies this
      ensures add.Completed? ==> hr == S_OK && Context() == old(Context())
      ensures add.NotCompleted? && !IsAlreadyExists(add.errorCode) ==>
                hr == add.errorCode && Context() == ErrorContext(add.extendedErrorCode, add.errorText, add.activityId)
      ensures Snapshot() == Add(old(Snapshot()), path, props.fullName, add, register).state
      ensures hr == Add(old(Snapshot()), path, props.fullName, add, register).result
    {
      requests := requests + [AddByUri(path)];
      match add {
        case Completed =>
          hr := S_OK;
        case NotCompleted(code, extended, text, activity) =>
          if IsAlreadyExists(code) {
            // Already present (for instance provisioned): register it instead.
            hr := RegisterPackage(props.fullName, register);
            if !Failed(hr) {
              hr := S_OK;
            }
          } else {
            extendedHresult, errorText, activityId := extended, text, activity;
            hr := code;
          }
      }
    }

    method ProvisionPackage(familyName: string, op: DeploymentOutcome) returns (hr: HResult)
      modifies this
      ensures op.Completed? ==> hr == S_OK && Context() == old(Context())
      ensures op.NotCompleted? ==>
                hr == op.errorCode && Context() == old(Context()).(activityId := op.activityId)
      ensures Snapshot() == Provision(old(Snapshot()), familyName, op).state
      ensures hr == Provision(old(Snapshot()), familyName, op).result
    {
      requests := requests + [ProvisionForAllUsers(familyName)];
      match op {
        case Completed =>
          hr := S_OK;
        case NotCompleted(code, _, _, activity) =>
          activityId := activity;
          hr := code;
      }
    }

    /** The body of DeployPackageFromResource that runs under the temporary
        file's scope guard. */
    method DeployStaged(props: PackageProperties, path: string, os: PackageOs, options: Options)
      returns (c: Completion)
      modifies this
      ensures Snapshot() == Deployment.DeployStaged(old(Snapshot()), props, path, os, options).state
      ensures c == Deployment.DeployStaged(old(Snapshot()), props, path, os, options).result
    {
      // DryRun: don't do the work.
      if options.dryRun {
        return Returned;
      }
      MoveTo(CreatePackageURI);
      if os.copy.Threw? {
        return os.copy;
      }
      MoveTo(InstallStage.AddPackage);
      var hrAdd := AddPackage(path, props, os.add, os.register);
      Print(options.quiet, DeploymentResult(hrAdd, ShowErrorMessage(hrAdd, stage, Context())));
      if Failed(hrAdd) {
        return Threw(hrAdd);
      }
      // Framework provisioning is not supported by the package manager.
      if !props.isFramework {
        MoveTo(InstallStage.ProvisionPackage);
        var hrProvision := ProvisionPackage(props.familyName, os.provision);
        Print(options.quiet, ProvisioningResult(hrProvision, ShowErrorMessage(hrProvision, stage, Context())));
      }
      c := Returned;
    }

    method DeployPackageFromResource(resource: ResourcePackageInfo, os: PackageOs, options: Options)
      returns (c: Completion)
      modifies this
      ensures Snapshot() == DeployPackage(old(Snapshot()), resource, os, options).state
      ensures c == DeployPackage(old(Snapshot()), resource, os, options).result
    {
      MoveTo(GetPackageProperties);
      if os.properties.Err? {
        return Threw(os.properties.hr);
      }
      var props := os.properties.value;
      currentPackageFullName := Some(props.fullName);
      var applicable := IsPackageApplicable(props, resource.deploymentBehavior, os.nativeMachine);
      if applicable.Err? {
        return Threw(applicable.hr);
      }
      if !applicable.value {
        return Returned;
      }
      if os.tempFile.Err? {
        return Threw(os.tempFile.hr);
      }
      // The temporary file now exists; every exit below removes it.
      var path := os.tempFile.value;
      tempFiles := tempFiles + {path};
      Print(options.quiet, DeployingPackage(props.fullName));
      c := DeployStaged(props, path, os, options);
      if os.deleteSucceeds {
        tempFiles := tempFiles - {path};
      }
    }

    method DeployPackages(catalog: seq<ResourcePackageInfo>, os: seq<PackageOs>, options: Options)
      returns (c: Completion)
      requires |os| == |catalog|
      modifies this
      ensures Snapshot() == Deployment.DeployPackages(old(Snapshot()), catalog, os, options).state
      ensures c == Deployment.DeployPackages(old(Snapshot()), catalog, os, options).result
    {
      c := Returned;
      if options.installPackages {
        var i := 0;
        while i < |catalog|
          invariant 0 <= i <= |catalog|
          invariant c == Returned
          invariant DeployAll(Snapshot(), catalog[i..], os[i..], options)
                    == DeployAll(old(Snapshot()), catalog, os, options)
        {
          c := DeployPackageFromResource(catalog[i], os[i], options);
          if c.Threw? {
            return;
          }
          extendedHresult, errorText, activityId := S_OK, "", GUID_NULL;
          assert catalog[i..][1..] == catalog[i + 1..] && os[i..][1..] == os[i + 1..];
          i := i + 1;
        }
      }
    }

    method InstallLicenses(licenses: seq<string>, results: seq<HResult>, options: Options, processLicenses: bool)
      returns (hr: HResult)
      requires |results| == |licenses|
      modifies this
      ensures Snapshot() == Deployment.InstallLicenses(old(Snapshot()), licenses, results, options, processLicenses).state
      ensures hr == Deployment.InstallLicenses(old(Snapshot()), licenses, results, options, processLicenses).result
    {
      if processLicenses && options.installLicenses {
        MoveTo(InstallLicense);
        var i := 0;
        while i < |licenses|
          invariant 0 <= i <= |licenses|
          invariant InstallEach(Snapshot(), licenses[i..], results[i..], options)
                    == Deployment.InstallLicenses(old(Snapshot()), licenses, results, options, processLicenses)
        {
          assert licenses[i..][1..] == licenses[i + 1..] && results[i..][1..] == results[i + 1..];
          Print(options.quiet, InstallingLicense(licenses[i]));
          // DryRun: don't do the work.
          if !options.dryRun {
            var result := results[i];
            requests := requests + [InstallLicenseById(licenses[i])];
            Print(options.quiet, InstallResult(result, ShowErrorMessage(result, stage, Context())));
            if Failed(result) {
              return result;
            }
          }
          i := i + 1;
        }
      }
      hr := S_OK;
    }

    method Deploy(licenses: seq<string>, licenseResults: seq<HResult>, catalog: seq<ResourcePackageInfo>,
                  os: seq<PackageOs>, options: Options, processLicenses: bool) returns (hr: HResult)
      requires |licenseResults| == |licenses| && |os| == |catalog|
      modifies this
      ensures Snapshot() == Deployment.Deploy(old(Snapshot()), licenses, licenseResults, catalog, os, options, processLicenses).state
      ensures hr == Deployment.Deploy(old(Snapshot()), licenses, licenseResults, catalog, os, options, processLicenses).result
    {
      // Licenses before packages: better all licenses and some packages than
      // the other way round.
      hr := InstallLicenses(licenses, licenseResults, options, processLicenses);
      if Failed(hr) {
        return;
      }
      var c := DeployPackages(catalog, os, options);
      hr := if c.Threw? then c.hr else S_OK;
    }
  }
}
