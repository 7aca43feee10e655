/** What the deployment workflow guarantees, proved about the Deployment
    module's functions (and so about the Install module's class, which agrees
    with them step by step). */
module DeploymentFacts {
  import opened HResults
  import opened Packages
  import opened Applicability
  import opened ErrorReport
  import opened Deployment

  // ---------------------------------------------------------------------------
  // Add, register and provision

  /** "Already exists" from the add operation leads to registration by full
      name; the add step then returns S_OK exactly when registration does not
      fail, and a failed registration's detail is what the error context holds. */
  lemma AlreadyExistsFallsBackToRegister(s: State, path: string, fullName: string, extended: HResult,
                                         text: string, activity: Guid, register: DeploymentOutcome)
    ensures var r := Add(s, path, fullName, NotCompleted(HR_PACKAGE_ALREADY_EXISTS, extended, text, activity), register);
            r.state.requests == s.requests + [AddByUri(path), RegisterByFullName(fullName)]
            && r.state.stage == RegisterPackage
            && (register.Completed? ==> r.result == S_OK && r.state.context == s.context)
            && (register.NotCompleted? ==>
                  r.state.context == ErrorContext(register.extendedErrorCode, register.errorText, register.activityId)
                  && r.result == (if Failed(register.errorCode) then register.errorCode else S_OK))
  {
  }

  /** As written, the add step treats the service's "already exists" failure
      like any other failure: it reports the add error and never registers. */
  lemma AsWrittenAddRejectsExistingPackage(s: State, path: string, fullName: string, extended: HResult,
                                           text: string, activity: Guid, register: DeploymentOutcome)
    ensures var asWritten := AddAsWritten(s, path, fullName, NotCompleted(HR_PACKAGE_ALREADY_EXISTS, extended, text, activity), register);
            asWritten.result == HR_PACKAGE_ALREADY_EXISTS
            && asWritten.state.requests == s.requests + [AddByUri(path)]
            && asWritten.state.context == ErrorContext(extended, text, activity)
    ensures Add(s, path, fullName, NotCompleted(HR_PACKAGE_ALREADY_EXISTS, extended, text, activity), register).state.requests
            == s.requests + [AddByUri(path), RegisterByFullName(fullName)]
  {
  }

  /** As written, the fallback guard can never fire on a failed operation. */
  lemma AsWrittenGuardNeverFiresOnFailure(code: HResult)
    requires Failed(code)
    ensures !IsAlreadyExistsAsWritten(code)
    ensures IsAlreadyExists(code) <==> code == HR_PACKAGE_ALREADY_EXISTS
  {
  }

  /** The corrected add departs from the add as written only on the two codes
      the guards compare with: for every other outcome the two agree in state
      and result. */
  lemma AddAgreesWithAsWritten(s: State, path: string, fullName: string, add: DeploymentOutcome,
                               register: DeploymentOutcome)
    requires add.NotCompleted? ==>
               add.errorCode != HR_PACKAGE_ALREADY_EXISTS && add.errorCode as int != ERROR_PACKAGE_ALREADY_EXISTS
    ensures Add(s, path, fullName, add, register) == AddAsWritten(s, path, fullName, add, register)
  {
  }

  // ---------------------------------------------------------------------------
  // One package

  /** The package gets a temporary file: properties read, applicable, name
      obtained. */
  predicate ReachesTempFile(resource: ResourcePackageInfo, os: PackageOs)
  {
    os.properties.Ok?
    && IsPackageApplicable(os.properties.value, resource.deploymentBehavior, os.nativeMachine) == Ok(true)
    && os.tempFile.Ok?
  }

  /** The add step is reached: applicable, staged, not a dry run, copied. */
  predicate ReachesAdd(resource: ResourcePackageInfo, os: PackageOs, options: Options)
  {
    ReachesTempFile(resource, os) && !options.dryRun && os.copy.Returned?
  }

  /** An inapplicable package stops after GetPackageProperties: no temporary
      file, no request, no output, and the package counts as done. */
  lemma InapplicablePackageIsSkipped(s: State, resource: ResourcePackageInfo, os: PackageOs, options: Options)
    requires os.properties.Ok?
    requires IsPackageApplicable(os.properties.value, resource.deploymentBehavior, os.nativeMachine) == Ok(false)
    ensures var r := DeployPackage(s, resource, os, options);
            r.result == Returned
            && r.state == SetStage(s, GetPackageProperties).(currentPackageFullName := Some(os.properties.value.fullName))
  {
  }

  /** A dry run never gets past GetPackageProperties and makes no request of
      the deployment service; the error context is untouched. */
  lemma DryRunStopsBeforeCreatePackageUri(s: State, resource: ResourcePackageInfo, os: PackageOs, options: Options)
    requires options.dryRun
    ensures var r := DeployPackage(s, resource, os, options);
            r.state.stageHistory == s.stageHistory + [GetPackageProperties]
            && r.state.requests == s.requests
            && r.state.context == s.context
            && (r.result.Threw? ==> !ReachesTempFile(resource, os))
  {
  }

  /** The temporary file, once created, is removed on every way out (dry run,
      a throw while copying or adding, normal completion); only a failed
      delete leaves it behind, and then only it. */
  lemma TempFileRemovedOnEveryExit(s: State, resource: ResourcePackageInfo, os: PackageOs, options: Options)
    requires os.tempFile.Ok? ==> os.tempFile.value !in s.tempFiles
    ensures var r := DeployPackage(s, resource, os, options);
            r.state.tempFiles == s.tempFiles
            || (!os.deleteSucceeds && ReachesTempFile(resource, os)
                && r.state.tempFiles == s.tempFiles + {os.tempFile.value})
  {
    if ReachesTempFile(resource, os) {
      StagedOfPackage(s, resource, os, options);
    }
  }

  /** Without the freshness of the temporary name: a successful delete never
      leaves a new file. */
  lemma NoNewTempFile(s: State, resource: ResourcePackageInfo, os: PackageOs, options: Options)
    requires os.deleteSucceeds
    ensures DeployPackage(s, resource, os, options).state.tempFiles <= s.tempFiles
  {
    if ReachesTempFile(resource, os) {
      StagedOfPackage(s, resource, os, options);
    }
  }

  /** The stage lists the staged part can append: CreatePackageURI, AddPackage,
      RegisterPackage and ProvisionPackage, in this order, each possibly
      missing from the end, with RegisterPackage and ProvisionPackage optional. */
  predicate StagedStages(v: seq<InstallStage>)
  {
    var C, A, R, P := CreatePackageURI, InstallStage.AddPackage, InstallStage.RegisterPackage,
                      InstallStage.ProvisionPackage;
    v == [] || v == [C] || v == [C, A] || v == [C, A, R] || v == [C, A, P] || v == [C, A, R, P]
  }

  /** The requests one package may make, in order: add; then register when add
      reported "already exists"; then provision, for a non-framework package. */
  predicate PackageRequests(added: seq<OsRequest>, path: string, props: PackageProperties)
  {
    var add := [AddByUri(path)];
    var register := [RegisterByFullName(props.fullName)];
    var provision := if props.isFramework then [] else [ProvisionForAllUsers(props.familyName)];
    added == add || added == add + register || added == add + provision || added == add + register + provision
  }

  /** The result of the add step, which does not depend on the state. */
  function AddResult(add: DeploymentOutcome, register: DeploymentOutcome): HResult
  {
    match add
    case Completed => S_OK
    case NotCompleted(code, _, _, _) =>
      if !IsAlreadyExists(code) then code
      else if register.NotCompleted? && Failed(register.errorCode) then register.errorCode
      else S_OK
  }

  /** Whether the add step falls back to registration. */
  predicate FallsBack(add: DeploymentOutcome)
  {
    add.NotCompleted? && IsAlreadyExists(add.errorCode)
  }

  /** The stages the staged part assigns, in order. */
  function ExpectedStages(props: PackageProperties, os: PackageOs, options: Options): seq<InstallStage>
  {
    var C, A, R, P := CreatePackageURI, InstallStage.AddPackage, InstallStage.RegisterPackage,
                      InstallStage.ProvisionPackage;
    if options.dryRun then []
    else if os.copy.Threw? then [C]
    else
      var addStages := if FallsBack(os.add) then [C, A, R] else [C, A];
      if Failed(AddResult(os.add, os.register)) || props.isFramework then addStages else addStages + [P]
  }

  /** The requests the staged part makes, in order. */
  function ExpectedRequests(props: PackageProperties, path: string, os: PackageOs, options: Options): seq<OsRequest>
  {
    if options.dryRun || os.copy.Threw? then []
    else
      var addRequests := if FallsBack(os.add) then [AddByUri(path), RegisterByFullName(props.fullName)]
                         else [AddByUri(path)];
      if Failed(AddResult(os.add, os.register)) || props.isFramework then addRequests
      else addRequests + [ProvisionForAllUsers(props.familyName)]
  }

  lemma ExpectedStagesAreStaged(props: PackageProperties, os: PackageOs, options: Options)
    ensures StagedStages(ExpectedStages(props, os, options))
  {
  }

  lemma ExpectedRequestsArePackageRequests(props: PackageProperties, path: string, os: PackageOs, options: Options)
    requires !options.dryRun && os.copy.Returned?
    ensures PackageRequests(ExpectedRequests(props, path, os, options), path, props)
  {
  }

  /** The stage assignments, requests and files of the add step. */
  lemma AddEffects(s: State, path: string, fullName: string, add: DeploymentOutcome, register: DeploymentOutcome)
    ensures var r := Add(s, path, fullName, add, register);
            r.result == AddResult(add, register)
            && r.state.tempFiles == s.tempFiles
            && (if FallsBack(add)
                then r.state.stageHistory == s.stageHistory + [InstallStage.RegisterPackage]
                     && r.state.stage == InstallStage.RegisterPackage
                     && r.state.requests == s.requests + [AddByUri(path), RegisterByFullName(fullName)]
                else r.state.stageHistory == s.stageHistory && r.state.stage == s.stage
                     && r.state.requests == s.requests + [AddByUri(path)])
  {
  }

  /** The stages the staged part assigns once the image is copied: the add
      step's, then ProvisionPackage for a non-framework package whose add
      succeeded. */
  lemma CopiedStages(s: State, props: PackageProperties, path: string, os: PackageOs, options: Options)
    requires !options.dryRun && os.copy.Returned?
    ensures DeployStaged(s, props, path, os, options).state.stageHistory
            == s.stageHistory + ExpectedStages(props, os, options)
  {
    var s2 := SetStage(SetStage(s, CreatePackageURI), InstallStage.AddPackage);
    AddEffects(s2, path, props.fullName, os.add, os.register);
  }

  /** The requests the staged part makes once the image is copied. */
  lemma CopiedRequests(s: State, props: PackageProperties, path: string, os: PackageOs, options: Options)
    requires !options.dryRun && os.copy.Returned?
    ensures var r := DeployStaged(s, props, path, os, options);
            r.state.tempFiles == s.tempFiles
            && r.state.requests == s.requests + ExpectedRequests(props, path, os, options)
  {
    var s2 := SetStage(SetStage(s, CreatePackageURI), InstallStage.AddPackage);
    AddEffects(s2, path, props.fullName, os.add, os.register);
  }

  /** The stage assignments, requests and files of the part of a package's
      workflow that runs while its temporary file exists. */
  lemma StagedEffects(s: State, props: PackageProperties, path: string, os: PackageOs, options: Options)
    ensures var r := DeployStaged(s, props, path, os, options);
            var v := ExpectedStages(props, os, options);
            r.state.tempFiles == s.tempFiles
            && r.state.stageHistory == s.stageHistory + v
            && r.state.stage == (if v == [] then s.stage else v[|v| - 1])
            && r.state.requests == s.requests + ExpectedRequests(props, path, os, options)
  {
    var r := DeployStaged(s, props, path, os, options);
    if !options.dryRun && os.copy.Returned? {
      CopiedStages(s, props, path, os, options);
      CopiedRequests(s, props, path, os, options);
      var s2 := SetStage(SetStage(s, CreatePackageURI), InstallStage.AddPackage);
      AddEffects(s2, path, props.fullName, os.add, os.register);
    }
  }

  /** The state the staged part of a package starts from. */
  function StagedStart(s: State, resource: ResourcePackageInfo, os: PackageOs, options: Options): State
    requires ReachesTempFile(resource, os)
  {
    var props, path := os.properties.value, os.tempFile.value;
    var s1 := SetStage(s, GetPackageProperties);
    Show(s1.(currentPackageFullName := Some(props.fullName), tempFiles := s1.tempFiles + {path}),
         options.quiet, DeployingPackage(props.fullName))
  }

  /** A package that reaches its temporary file ends as its staged part does,
      with the file removed when the delete succeeds. */
  lemma StagedOfPackage(s: State, resource: ResourcePackageInfo, os: PackageOs, options: Options)
    requires ReachesTempFile(resource, os)
    ensures var r := DeployPackage(s, resource, os, options);
            var path := os.tempFile.value;
            var staged := DeployStaged(StagedStart(s, resource, os, options), os.properties.value, path, os, options);
            r == Step(RemoveTempFile(staged.state, path, os.deleteSucceeds), staged.result)
            && staged.state.tempFiles == s.tempFiles + {path}
  {
    StagedEffects(StagedStart(s, resource, os, options), os.properties.value, os.tempFile.value, os, options);
  }

  /** The stages and requests of one whole package: GetPackageProperties, and
      the staged part's once the temporary file exists. */
  lemma PackageEffects(s: State, resource: ResourcePackageInfo, os: PackageOs, options: Options)
    ensures var r := DeployPackage(s, resource, os, options);
            var v := if ReachesTempFile(resource, os) then ExpectedStages(os.properties.value, os, options) else [];
            r.state.stageHistory == s.stageHistory + [GetPackageProperties] + v
            && r.state.stage == (if v == [] then GetPackageProperties else v[|v| - 1])
            && r.state.requests
               == s.requests + (if ReachesTempFile(resource, os)
                                then ExpectedRequests(os.properties.value, os.tempFile.value, os, options) else [])
  {
    if ReachesTempFile(resource, os) {
      StagedOfPackage(s, resource, os, options);
      StagedEffects(StagedStart(s, resource, os, options), os.properties.value, os.tempFile.value, os, options);
    }
  }

  /** The stages in `v` strictly increase in the workflow's order. */
  predicate Advancing(v: seq<InstallStage>)
  {
    forall i, j :: 0 <= i < j < |v| ==> Rank(v[i]) < Rank(v[j])
  }

  lemma StagedStagesAdvance(v: seq<InstallStage>)
    requires StagedStages(v)
    ensures Advancing([GetPackageProperties] + v)
  {
  }

  /** Within one package the stage cursor only moves forward: the stages it is
      given start at GetPackageProperties and strictly increase, and the cursor
      ends on the last of them. */
  lemma StagesAdvance(s: State, resource: ResourcePackageInfo, os: PackageOs, options: Options)
    ensures var r := DeployPackage(s, resource, os, options);
            var history := r.state.stageHistory;
            |s.stageHistory| < |history| && history[|s.stageHistory|] == GetPackageProperties
            && r.state.stage == history[|history| - 1]
            && Advancing(history[|s.stageHistory|..])
  {
    var r := DeployPackage(s, resource, os, options);
    PackageEffects(s, resource, os, options);
    var v: seq<InstallStage> := [];
    if ReachesTempFile(resource, os) {
      v := ExpectedStages(os.properties.value, os, options);
      ExpectedStagesAreStaged(os.properties.value, os, options);
    }
    StagedStagesAdvance(v);
    assert r.state.stageHistory[|s.stageHistory|..] == [GetPackageProperties] + v;
  }

  /** What one package asks of the deployment service, and that it asks
      nothing unless the add step is reached. */
  lemma RequestsOfOnePackage(s: State, resource: ResourcePackageInfo, os: PackageOs, options: Options)
    ensures var r := DeployPackage(s, resource, os, options);
            var added := r.state.requests[|s.requests|..];
            if ReachesAdd(resource, os, options)
            then PackageRequests(added, os.tempFile.value, os.properties.value)
            else added == []
  {
    var r := DeployPackage(s, resource, os, options);
    PackageEffects(s, resource, os, options);
    if ReachesAdd(resource, os, options) {
      ExpectedRequestsArePackageRequests(os.properties.value, os.tempFile.value, os, options);
      assert r.state.requests[|s.requests|..]
             == ExpectedRequests(os.properties.value, os.tempFile.value, os, options);
    } else {
      assert r.state.requests[|s.requests|..] == [];
    }
  }

  /** No request from position `n` on is a license request. */
  predicate LicenseFreeFrom(requests: seq<OsRequest>, n: nat)
  {
    forall k :: n <= k < |requests| ==> !requests[k].InstallLicenseById?
  }

  /** Appending license-free requests keeps a license-free suffix license-free. */
  lemma LicenseFreeAppend(a: seq<OsRequest>, b: seq<OsRequest>, n: nat)
    requires LicenseFreeFrom(a, n) && a <= b && LicenseFreeFrom(b, |a|)
    ensures LicenseFreeFrom(b, n)
  {
    forall k | n <= k < |b| ensures !b[k].InstallLicenseById? {
      if k < |a| { assert b[k] == a[k]; }
    }
  }

  /** No request one package makes is a license request. */
  lemma OnePackageMakesNoLicenseRequest(s: State, resource: ResourcePackageInfo, os: PackageOs, options: Options)
    ensures LicenseFreeFrom(DeployPackage(s, resource, os, options).state.requests, |s.requests|)
  {
    PackageEffects(s, resource, os, options);
  }

  /** A failed add, or a failed registration after "already exists", is
      thrown out of the package. */
  lemma AddOrRegisterFailureThrows(s: State, resource: ResourcePackageInfo, os: PackageOs, options: Options)
    requires ReachesAdd(resource, os, options) && os.add.NotCompleted?
    ensures var r := DeployPackage(s, resource, os, options);
            (!IsAlreadyExists(os.add.errorCode) && Failed(os.add.errorCode) ==> r.result == Threw(os.add.errorCode))
            && (IsAlreadyExists(os.add.errorCode) && os.register.NotCompleted? && Failed(os.register.errorCode) ==>
                  r.result == Threw(os.register.errorCode))
  {
  }

  /** Once the add step is reached, the package throws exactly when the add
      step fails, with that step's code, and otherwise returns normally: an
      application or a framework whose add (or fallback registration)
      succeeds counts as deployed, whatever provisioning does. */
  lemma PackageResult(s: State, resource: ResourcePackageInfo, os: PackageOs, options: Options)
    requires ReachesAdd(resource, os, options)
    ensures DeployPackage(s, resource, os, options).result
            == (if Failed(AddResult(os.add, os.register)) then Threw(AddResult(os.add, os.register)) else Returned)
  {
    StagedOfPackage(s, resource, os, options);
    var s2 := SetStage(SetStage(StagedStart(s, resource, os, options), CreatePackageURI), InstallStage.AddPackage);
    AddEffects(s2, os.tempFile.value, os.properties.value.fullName, os.add, os.register);
  }

  /** How a package ends depends neither on the state it starts in nor on the
      provisioning outcome: a provisioning failure is never thrown. */
  lemma ResultIgnoresStateAndProvision(s: State, t: State, resource: ResourcePackageInfo, os: PackageOs,
                                       provision: DeploymentOutcome, options: Options)
    ensures DeployPackage(s, resource, os, options).result
            == DeployPackage(t, resource, os.(provision := provision), options).result
  {
    var os' := os.(provision := provision);
    if ReachesAdd(resource, os, options) {
      var props, path := os.properties.value, os.tempFile.value;
      var addS := Add(SetStage(SetStage(s, CreatePackageURI), InstallStage.AddPackage), path, props.fullName, os.add, os.register);
      var addT := Add(SetStage(SetStage(t, CreatePackageURI), InstallStage.AddPackage), path, props.fullName, os.add, os.register);
      assert addS.result == addT.result;
    }
  }

  /** Access denied while provisioning a non-framework package: the package
      still counts as deployed, and the report carries the elevation tip. */
  lemma ElevationTipOnDeniedProvision(s: State, resource: ResourcePackageInfo, os: PackageOs, options: Options,
                                      extended: HResult, text: string, activity: Guid)
    requires ReachesAdd(resource, os, options) && !options.quiet
    requires os.add.Completed? && !os.properties.value.isFramework
    requires os.provision == NotCompleted(HR_ACCESS_DENIED, extended, text, activity)
    ensures var r := DeployPackage(s, resource, os, options);
            r.result == Returned
            && |r.state.console| > 0
            && r.state.console[|r.state.console| - 1].ProvisioningResult?
            && r.state.console[|r.state.console| - 1].hr == HR_ACCESS_DENIED
            && ElevationTip in r.state.console[|r.state.console| - 1].sections
  {
  }

  /** A failed add (other than "already exists") is reported with the
      extended error code and error text the service returned for it, and the
      package throws that add's code. */
  lemma AddFailureReportShowsDetail(s: State, resource: ResourcePackageInfo, os: PackageOs, options: Options,
                                    code: HResult, extended: HResult, text: string, activity: Guid)
    requires ReachesAdd(resource, os, options) && !options.quiet
    requires os.add == NotCompleted(code, extended, text, activity) && Failed(code) && !IsAlreadyExists(code)
    ensures var r := DeployPackage(s, resource, os, options);
            var report := r.state.console[|r.state.console| - 1];
            r.result == Threw(code)
            && |r.state.console| > 0
            && report == DeploymentResult(code, report.sections)
            && (extended != 0 <==> ExtendedError(extended) in report.sections)
            && (text != [] <==> ErrorMessage(text) in report.sections)
  {
  }

  // ---------------------------------------------------------------------------
  // The package loop

  /** Running the catalog a + b is running a and then, unless a threw, running
      b from where a left off. In particular a throw in a means no package of b
      is ever attempted. */
  lemma {:induction false} DeployAllSplit(s: State, a: seq<ResourcePackageInfo>, osA: seq<PackageOs>,
                                          b: seq<ResourcePackageInfo>, osB: seq<PackageOs>, options: Options)
    requires |osA| == |a| && |osB| == |b|
    ensures var first := DeployAll(s, a, osA, options);
            DeployAll(s, a + b, osA + osB, options)
            == if first.result.Threw? then first else DeployAll(first.state, b, osB, options)
    decreases |a|
  {
    if a != [] {
      assert (a + b)[0] == a[0] && (osA + osB)[0] == osA[0];
      assert (a + b)[1..] == a[1..] + b && (osA + osB)[1..] == osA[1..] + osB;
      var head := DeployPackage(s, a[0], osA[0], options);
      if !head.result.Threw? {
        DeployAllSplit(ClearErrorContext(head.state), a[1..], osA[1..], b, osB, options);
      }
    } else {
      assert a + b == b && osA + osB == osB;
    }
  }

  /** After a run that returns, the error context is empty: nothing captured
      for one package is visible to the next, or after the loop. */
  lemma {:induction false} ContextClearedAfterRun(s: State, catalog: seq<ResourcePackageInfo>, os: seq<PackageOs>,
                                                  options: Options)
    requires |os| == |catalog|
    requires catalog != [] || s.context == NO_ERROR
    ensures var r := DeployAll(s, catalog, os, options);
            r.result == Returned ==> r.state.context == NO_ERROR
    decreases |catalog|
  {
    if catalog != [] {
      var first := DeployPackage(s, catalog[0], os[0], options);
      if !first.result.Threw? {
        ContextClearedAfterRun(ClearErrorContext(first.state), catalog[1..], os[1..], options);
      }
    }
  }

  /** A dry run over any catalog makes no request of the deployment service
      and never moves the stage cursor past GetPackageProperties. */
  lemma {:induction false} DryRunRunMakesNoRequests(s: State, catalog: seq<ResourcePackageInfo>, os: seq<PackageOs>,
                                                    options: Options)
    requires |os| == |catalog| && options.dryRun
    ensures var r := DeployAll(s, catalog, os, options);
            r.state.requests == s.requests
            && forall k :: |s.stageHistory| <= k < |r.state.stageHistory| ==> r.state.stageHistory[k] == GetPackageProperties
    decreases |catalog|
  {
    if catalog != [] {
      var first := DeployPackage(s, catalog[0], os[0], options);
      DryRunStopsBeforeCreatePackageUri(s, catalog[0], os[0], options);
      if !first.result.Threw? {
        DryRunRunMakesNoRequests(ClearErrorContext(first.state), catalog[1..], os[1..], options);
      }
    }
  }

  /** When every delete succeeds, a run leaves no temporary file behind. */
  lemma {:induction false} RunLeavesNoTempFiles(s: State, catalog: seq<ResourcePackageInfo>, os: seq<PackageOs>,
                                                options: Options)
    requires |os| == |catalog|
    requires forall i :: 0 <= i < |os| ==> os[i].deleteSucceeds
    ensures DeployAll(s, catalog, os, options).state.tempFiles <= s.tempFiles
    decreases |catalog|
  {
    if catalog != [] {
      var first := DeployPackage(s, catalog[0], os[0], options);
      NoNewTempFile(s, catalog[0], os[0], options);
      if !first.result.Threw? {
        RunLeavesNoTempFiles(ClearErrorContext(first.state), catalog[1..], os[1..], options);
      }
    }
  }

  /** `os'` is `os` with (possibly) different provisioning outcomes. */
  predicate SameButProvisioning(os: seq<PackageOs>, os': seq<PackageOs>)
  {
    |os| == |os'| && forall i :: 0 <= i < |os| ==> os'[i] == os[i].(provision := os'[i].provision)
  }

  /** Provisioning outcomes never change how the package loop ends, whatever
      state it starts in. */
  lemma {:induction false} ProvisioningNeverChangesRunResult(s: State, t: State, catalog: seq<ResourcePackageInfo>,
                                                             os: seq<PackageOs>, os': seq<PackageOs>, options: Options)
    requires |os| == |catalog| && SameButProvisioning(os, os')
    ensures DeployAll(s, catalog, os, options).result == DeployAll(t, catalog, os', options).result
    decreases |catalog|
  {
    if catalog != [] {
      ResultIgnoresStateAndProvision(s, t, catalog[0], os[0], os'[0].provision, options);
      assert os'[0] == os[0].(provision := os'[0].provision);
      var first := DeployPackage(s, catalog[0], os[0], options);
      var first' := DeployPackage(t, catalog[0], os'[0], options);
      if !first.result.Threw? {
        assert SameButProvisioning(os[1..], os'[1..]) by {
          forall i | 0 <= i < |os[1..]|
            ensures os'[1..][i] == os[1..][i].(provision := os'[1..][i].provision)
          {
            assert os'[1..][i] == os'[i + 1] && os[1..][i] == os[i + 1];
          }
        }
        ProvisioningNeverChangesRunResult(ClearErrorContext(first.state), ClearErrorContext(first'.state),
                                          catalog[1..], os[1..], os'[1..], options);
      }
    }
  }

  /** The package loop makes no license request. */
  lemma {:induction false} PackageLoopMakesNoLicenseRequest(s: State, catalog: seq<ResourcePackageInfo>,
                                                            os: seq<PackageOs>, options: Options)
    requires |os| == |catalog|
    ensures LicenseFreeFrom(DeployAll(s, catalog, os, options).state.requests, |s.requests|)
    decreases |catalog|
  {
    if catalog != [] {
      var first := DeployPackage(s, catalog[0], os[0], options);
      OnePackageMakesNoLicenseRequest(s, catalog[0], os[0], options);
      if !first.result.Threw? {
        var rest := ClearErrorContext(first.state);
        PackageLoopMakesNoLicenseRequest(rest, catalog[1..], os[1..], options);
        LicenseFreeAppend(rest.requests, DeployAll(rest, catalog[1..], os[1..], options).state.requests, |s.requests|);
      }
    }
  }

  // ---------------------------------------------------------------------------
  // The license loop and Deploy

  /** The requests that install the given licenses, in order. */
  function LicenseRequests(ids: seq<string>): (requests: seq<OsRequest>)
    ensures |requests| == |ids|
  {
    if ids == [] then [] else [InstallLicenseById(ids[0])] + LicenseRequests(ids[1..])
  }

  /** The k-th request installs the k-th license. */
  lemma {:induction false} LicenseRequestsInOrder(ids: seq<string>)
    ensures forall k :: 0 <= k < |ids| ==> LicenseRequests(ids)[k] == InstallLicenseById(ids[k])
  {
    if ids != [] {
      LicenseRequestsInOrder(ids[1..]);
      forall k | 0 < k < |ids| ensures LicenseRequests(ids)[k] == InstallLicenseById(ids[k]) {
        assert LicenseRequests(ids)[k] == LicenseRequests(ids[1..])[k - 1];
      }
    }
  }

  /** Installing the first `n` licenses is installing the first one, then the
      next `n - 1`. */
  lemma LicenseRequestsPrefix(ids: seq<string>, n: nat)
    requires 0 < n <= |ids|
    ensures LicenseRequests(ids[..n]) == [InstallLicenseById(ids[0])] + LicenseRequests(ids[1..][..n - 1])
  {
    assert ids[..n][1..] == ids[1..][..n - 1];
  }

  /** The position of the first failed result, or |results| when none failed. */
  function FirstFailed(results: seq<HResult>): (k: nat)
    ensures k <= |results|
    ensures forall j :: 0 <= j < k ==> !Failed(results[j])
    ensures k < |results| ==> Failed(results[k])
  {
    if results == [] then 0
    else if Failed(results[0]) then 0
    else 1 + FirstFailed(results[1..])
  }

  /** How many licenses the loop installs: up to and including the first
      failure, or all of them. */
  function Attempted(results: seq<HResult>): (n: nat)
    ensures n <= |results|
  {
    if FirstFailed(results) < |results| then FirstFailed(results) + 1 else |results|
  }

  /** The first license either fails, and is the only one attempted, or it
      is attempted along with those the rest of the loop attempts. */
  lemma AttemptedStep(results: seq<HResult>)
    requires results != []
    ensures Attempted(results) == if Failed(results[0]) then 1 else Attempted(results[1..]) + 1
  {
  }

  /** The license loop leaves the stage cursor and the error context alone, and
      a dry run installs nothing and succeeds. */
  lemma {:induction false} LicenseLoopFrame(s: State, licenses: seq<string>, results: seq<HResult>, options: Options)
    requires |results| == |licenses|
    ensures var r := InstallEach(s, licenses, results, options);
            r.state.stage == s.stage && r.state.stageHistory == s.stageHistory && r.state.context == s.context
            && (options.dryRun ==> r.result == S_OK && r.state.requests == s.requests)
    decreases |licenses|
  {
    if licenses != [] {
      if options.dryRun {
        LicenseLoopFrame(Show(s, options.quiet, InstallingLicense(licenses[0])), licenses[1..], results[1..], options);
      } else if !Failed(results[0]) {
        LicenseLoopFrame(InstallOne(s, licenses[0], results[0], options.quiet), licenses[1..], results[1..], options);
      }
    }
  }

  /** The license loop returns the first failure's code, or S_OK when every
      license installed. */
  lemma {:induction false} LicenseLoopResult(s: State, licenses: seq<string>, results: seq<HResult>,
                                             options: Options)
    requires |results| == |licenses| && !options.dryRun
    ensures var k := FirstFailed(results);
            InstallEach(s, licenses, results, options).result == (if k < |results| then results[k] else S_OK)
    decreases |licenses|
  {
    if licenses != [] && !Failed(results[0]) {
      LicenseLoopResult(InstallOne(s, licenses[0], results[0], options.quiet), licenses[1..], results[1..], options);
    }
  }

  /** The license loop installs the licenses in order up to and including the
      first failure, or all of them. */
  lemma {:induction false} LicenseLoopStopsAtFirstFailure(s: State, licenses: seq<string>, results: seq<HResult>,
                                                          options: Options)
    requires |results| == |licenses| && !options.dryRun
    ensures InstallEach(s, licenses, results, options).state.requests
            == s.requests + LicenseRequests(licenses[..Attempted(results)])
    decreases |licenses|
  {
    if licenses != [] {
      AttemptedStep(results);
      LicenseRequestsPrefix(licenses, Attempted(results));
      if !Failed(results[0]) {
        LicenseLoopStopsAtFirstFailure(InstallOne(s, licenses[0], results[0], options.quiet),
                                       licenses[1..], results[1..], options);
      }
    } else {
      assert licenses[..0] == [];
    }
  }

  /** Deploy installs licenses strictly before packages: the license part adds
      only license requests, the package part none; a failed license ends
      Deploy with that license's code and no package request. */
  lemma LicensesBeforePackages(s: State, licenses: seq<string>, licenseResults: seq<HResult>,
                               catalog: seq<ResourcePackageInfo>, os: seq<PackageOs>, options: Options,
                               processLicenses: bool)
    requires |licenseResults| == |licenses| && |os| == |catalog|
    ensures var licensed := InstallLicenses(s, licenses, licenseResults, options, processLicenses);
            var r := Deploy(s, licenses, licenseResults, catalog, os, options, processLicenses);
            licensed.state.requests <= r.state.requests
            && (forall k :: |s.requests| <= k < |licensed.state.requests| ==> licensed.state.requests[k].InstallLicenseById?)
            && LicenseFreeFrom(r.state.requests, |licensed.state.requests|)
            && (Failed(licensed.result) ==> r == licensed)
  {
    var licensed := InstallLicenses(s, licenses, licenseResults, options, processLicenses);
    if processLicenses && options.installLicenses {
      var s0 := SetStage(s, InstallLicense);
      LicenseLoopFrame(s0, licenses, licenseResults, options);
      if !options.dryRun {
        LicenseLoopStopsAtFirstFailure(s0, licenses, licenseResults, options);
        var added := LicenseRequests(licenses[..Attempted(licenseResults)]);
        LicenseRequestsInOrder(licenses[..Attempted(licenseResults)]);
        forall k | |s.requests| <= k < |licensed.state.requests|
          ensures licensed.state.requests[k].InstallLicenseById?
        {
          assert licensed.state.requests[k] == added[k - |s.requests|];
        }
      }
    }
    if !Failed(licensed.result) && options.installPackages {
      PackageLoopMakesNoLicenseRequest(licensed.state, catalog, os, options);
    }
  }

  /** Provisioning failures never change Deploy's result (the process exit
      code). */
  lemma ProvisioningNeverChangesExitCode(s: State, licenses: seq<string>, licenseResults: seq<HResult>,
                                         catalog: seq<ResourcePackageInfo>, os: seq<PackageOs>, os': seq<PackageOs>,
                                         options: Options, processLicenses: bool)
    requires |licenseResults| == |licenses| && |os| == |catalog| && SameButProvisioning(os, os')
    ensures Deploy(s, licenses, licenseResults, catalog, os, options, processLicenses).result
            == Deploy(s, licenses, licenseResults, catalog, os', options, processLicenses).result
  {
    var licensed := InstallLicenses(s, licenses, licenseResults, options, processLicenses);
    ProvisioningNeverChangesRunResult(licensed.state, licensed.state, catalog, os, os', options);
  }
}
