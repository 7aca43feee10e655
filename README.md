# Windows App Runtime installer: package deployment, modelled in Dafny

This project models the package-deployment orchestrator of the Windows App
Runtime installer (`installer/dev/install.cpp`). It has three parts:

- **The architecture resolver.** `IsPackageApplicable` and its native-machine switch decide whether
  an embedded package fits the running system.
- **The per-package workflow.** `DeployPackageFromResource` with `AddPackage`, `RegisterPackage` and
  `ProvisionPackage`. It moves the process-wide stage cursor `g_installStage` forward. It records
  the deployment service's error detail in three globals. It is meant to fall back from add to
  register when the package already exists. The model uses the corrected guard for this fallback;
  see "## Findings". It stages the package image in a temporary file, which a scope guard
  deletes.
- **The run loops and the error reporter.** `Deploy`, `InstallLicenses` and `DeployPackages` run
  licenses before packages and reset the error globals after each package. `ShowErrorMessage`
  decides which sections of a report to print.

The modules:

- `HResults`: result codes, `FAILED`/`SUCCEEDED`, `HRESULT_FROM_WIN32`, and the wrappers for an
  operating-system answer (`Result`) and for how a step ends (`Completion`: returned or threw).
- `Packages`: the catalog entry and the manifest identity.
- `Applicability`: the resolver. It is stated against `Runs`, an independent one-line reading of
  the compatibility rules.
- `ErrorReport`: the stage cursor's values, the error context, and `ShowErrorMessage` as a function
  from the result code, the stage and the context to the sections it prints.
- `Deployment`: the workflow as functions on the observable state. That state is:
  - the cursor, and every value it was given;
  - the current package name;
  - the error context;
  - the temporary files that exist;
  - the requests made of the operating system;
  - the console lines.
- `Install`: the class `Installer`. Its fields are those globals, and its methods update them in
  place, as the source does, except that the add step uses the corrected guard of "## Findings".
  Every method is proved to leave the state, and return the result, that
  the `Deployment` function for the same step gives.
- `DeploymentFacts`: what the workflow guarantees, proved about the `Deployment` functions.

Everything the operating system answers is an input:
- `PackageOs` holds one package's answers: the manifest identity or the failure reading it, the
  native machine, the temporary file name, the copy, the add, register and provision outcomes, and
  whether the delete succeeds.
- The licenses' install results are a sequence of result codes.

An exception is `Threw(hr)`. `Deploy` turns it into its result, as `CATCH_RETURN` does.

Points where the code may surprise a reader; the model follows the code on each of them. The one
place where the model departs from the code is the "already exists" guard of "## Findings", where
it uses the corrected comparison:

- The error context is reset only after a package whose workflow returns
  (install.cpp:345-349). A package that throws ends the loop, and its error detail stays in place.
- The stage cursor is never set back to `None` between packages.
- In a dry run, the temporary file is still created and deleted, and "Deploying package" is still
  printed. The dry-run return comes after both (install.cpp:227-245).
- An inapplicable package returns before any temporary file exists. The scope guard is therefore
  not involved on that path.
- A failed provisioning records only the activity id (install.cpp:86).
- No report ever prints the activity id.

## Model

| member | source | states |
|---|---|---|
| HResults.HResultFromWin32 | installer/dev/install.cpp:390 | zero maps to S_OK; any other code below 2^31 maps to 0x8007xxxx: the failure bit set, bits 29-30 clear, facility 7, and the code's low 16 bits; larger codes keep their bits |
| HResults.HResultFromWin32Injective | installer/dev/install.cpp:390 | two different 16-bit Win32 codes never map to the same result code, so comparing with HRESULT_FROM_WIN32(c) recognises exactly c |
| Applicability.SystemArchitecture | installer/dev/install.cpp:101-118 | I386 maps to X86, AMD64 to X64 and ARM64 to Arm64, each in both directions; every other machine type fails with HRESULT_FROM_WIN32(ERROR_NOT_SUPPORTED) |
| Applicability.IsPackageApplicable | installer/dev/install.cpp:93-148 | Neutral is applicable before the machine is queried; otherwise the result is an error exactly when the machine query or the switch fails, and when it is not, the answer equals the compatibility relation `Runs` |
| Applicability.SameArchitectureApplicable | installer/dev/install.cpp:120-124 | a package whose architecture is the system's is applicable, whatever its role |
| Applicability.NonFrameworkNeedsExactMatch | installer/dev/install.cpp:126-131 | a package that is neither a framework nor deployed as one is applicable exactly when it is neutral or matches the system |
| Applicability.X86FrameworkOnX64 | installer/dev/install.cpp:135-139 | an X86 package on an X64 system is applicable exactly when it is in the framework role |
| Applicability.Arm64AcceptsEveryFramework | installer/dev/install.cpp:141-145 | on an Arm64 system every package in the framework role is applicable |
| Applicability.X86SystemAcceptsOnlyX86 | installer/dev/install.cpp:105-147 | on an X86 system exactly the X86 and neutral packages are applicable, frameworks included |
| Applicability.FrameworkRoleOnlyWidens | installer/dev/install.cpp:126-145 | what is applicable as an application stays applicable as a framework, by manifest flag or by catalog behaviour |
| Applicability.UnknownMachineNotSupported | installer/dev/install.cpp:116-117 | an unknown machine type fails every non-neutral package with HRESULT_FROM_WIN32(ERROR_NOT_SUPPORTED) |
| ErrorReport.ShowErrorMessage | installer/dev/install.cpp:355-396 | a success prints only a newline; a failure starts with the system message and contains no `Newline` section (the tip's own line break is part of `ElevationTip`); the sections of a report strictly increase in the order system message, ExtendedError, ErrorMessage, tip, so each appears at most once and in the source's order; ExtendedError is printed iff the code failed, the extended code is non-zero and the stage is AddPackage or RegisterPackage; ErrorMessage likewise for non-empty text; the elevation tip iff the stage is ProvisionPackage and the code is access denied; nothing else is printed |
| ErrorReport.NoStaleDetailOutsideDeployment | installer/dev/install.cpp:370-388 | outside AddPackage and RegisterPackage the report is the same whatever the error context holds |
| Deployment.IsAlreadyExistsAsWritten | installer/dev/install.cpp:56 | the guard as written can only hold for a success code |
| Deployment.IsAlreadyExists | installer/dev/install.cpp:56 | the corrected guard holds only for a failure code with the Win32 facility and code ERROR_PACKAGE_ALREADY_EXISTS |
| Deployment.Register | installer/dev/install.cpp:25-46 | only appends to the stage history, the requests and the console; its effects are stated by Install.Installer.RegisterPackage |
| Deployment.Add | installer/dev/install.cpp:48-74 | only appends to the stage history, the requests and the console; its effects are stated by DeploymentFacts.AddEffects |
| Deployment.AddAsWritten | installer/dev/install.cpp:48-74 | AddPackage with the guard as written; only appends to history, requests and console |
| Deployment.Provision | installer/dev/install.cpp:76-91 | only appends to the stage history, the requests and the console; its effects are stated by Install.Installer.ProvisionPackage |
| Deployment.DeployStaged | installer/dev/install.cpp:241-282 | only appends to the stage history, the requests and the console; its effects are stated by DeploymentFacts.StagedEffects |
| Deployment.DeployPackage | installer/dev/install.cpp:207-283 | only appends to the stage history, the requests and the console; its effects are stated by DeploymentFacts.PackageEffects |
| Deployment.DeployAll | installer/dev/install.cpp:343-350 | the loop over the catalog only appends to the stage history, the requests and the console |
| Deployment.DeployPackages | installer/dev/install.cpp:339-353 | only appends to the stage history, the requests and the console |
| Deployment.InstallOne | installer/dev/install.cpp:313-331 | one license adds exactly its install request and leaves the stage, the error context and the temporary files alone |
| Deployment.InstallEach | installer/dev/install.cpp:311-333 | the license loop only appends to the stage history, the requests and the console |
| Deployment.InstallLicenses | installer/dev/install.cpp:301-337 | only appends to the stage history, the requests and the console |
| Deployment.Deploy | installer/dev/install.cpp:285-299 | only appends to the stage history, the requests and the console |
| DeploymentFacts.AlreadyExistsFallsBackToRegister | installer/dev/install.cpp:53-61 | "already exists" from the add leads to a register request by full name; AddPackage returns S_OK exactly when registration does not fail, and a failed registration's detail is what the error context holds |
| DeploymentFacts.AsWrittenAddRejectsExistingPackage | installer/dev/install.cpp:55-70 | with the guard as written, "already exists" is reported as the add's failure and registration is never requested |
| DeploymentFacts.AsWrittenGuardNeverFiresOnFailure | installer/dev/install.cpp:56 | the guard as written never holds for a failed operation; the corrected guard holds for exactly one failure code |
| DeploymentFacts.ExpectedStagesAreStaged | installer/dev/install.cpp:247-272 | the stages of the staged part are CreatePackageURI, AddPackage, RegisterPackage and ProvisionPackage, in this order, with RegisterPackage and ProvisionPackage optional |
| DeploymentFacts.ExpectedRequestsArePackageRequests | installer/dev/install.cpp:51-79 | a package requests add, then register only after "already exists", then provision only for a non-framework package |
| DeploymentFacts.AddEffects | installer/dev/install.cpp:48-74 | the add's result, and the stage, history and requests it leaves, with and without the register fallback; the temporary files are untouched |
| DeploymentFacts.CopiedStages | installer/dev/install.cpp:257-282 | once the image is copied, the staged part assigns exactly the expected stages |
| DeploymentFacts.CopiedRequests | installer/dev/install.cpp:257-282 | once the image is copied, the staged part makes exactly the expected requests and leaves the temporary files alone |
| DeploymentFacts.StagedEffects | installer/dev/install.cpp:241-282 | the staged part's stages, final stage and requests are the expected ones, and it creates or deletes no file |
| DeploymentFacts.StagedOfPackage | installer/dev/install.cpp:225-283 | a package that gets a temporary file ends as its staged part does, with the file removed when the delete succeeds |
| DeploymentFacts.PackageEffects | installer/dev/install.cpp:207-283 | a whole package's stages (GetPackageProperties, then the staged part's), final stage and requests |
| DeploymentFacts.StagedStagesAdvance | installer/dev/install.cpp:211-272 | every stage sequence the workflow can produce is strictly increasing |
| DeploymentFacts.StagesAdvance | installer/dev/install.cpp:211-272 | within one package the cursor starts at GetPackageProperties, only moves forward, and ends on the last stage it was given |
| DeploymentFacts.RequestsOfOnePackage | installer/dev/install.cpp:219-282 | a package makes its add/register/provision requests only when it is applicable, staged, not a dry run and copied, and makes none otherwise |
| DeploymentFacts.InapplicablePackageIsSkipped | installer/dev/install.cpp:219-223 | an inapplicable package returns normally after GetPackageProperties, with no temporary file, no request and no output |
| DeploymentFacts.DryRunStopsBeforeCreatePackageUri | installer/dev/install.cpp:241-245 | a dry run stops at GetPackageProperties with no request and an untouched error context, and throws only before it has a temporary file |
| DeploymentFacts.TempFileRemovedOnEveryExit | installer/dev/install.cpp:227-234 | the temporary file is gone after every exit (dry run, throw, completion); only a failed delete leaves it behind, and then only it |
| DeploymentFacts.NoNewTempFile | installer/dev/install.cpp:231-234 | when the delete succeeds, a package leaves no new file |
| DeploymentFacts.LicenseFreeAppend | installer/dev/install.cpp:343-350 | appending license-free requests keeps the tail license-free |
| DeploymentFacts.OnePackageMakesNoLicenseRequest | installer/dev/install.cpp:207-283 | no request a package makes is a license request |
| DeploymentFacts.AddOrRegisterFailureThrows | installer/dev/install.cpp:259-267 | a failed add, or a failed registration after "already exists", is thrown with its code |
| DeploymentFacts.PackageResult | installer/dev/install.cpp:257-282 | once the add step is reached, the package throws exactly when the add step (or its fallback registration) fails, with that code, and otherwise returns normally, framework or not and whatever provisioning answers |
| DeploymentFacts.ResultIgnoresStateAndProvision | installer/dev/install.cpp:269-282 | how a package ends depends neither on the starting state nor on the provisioning outcome |
| DeploymentFacts.ElevationTipOnDeniedProvision | installer/dev/install.cpp:269-282 | access denied while provisioning still counts as deployed, and its report carries the elevation tip |
| DeploymentFacts.AddFailureReportShowsDetail | installer/dev/install.cpp:259-267 | a failed add is thrown with its code, and its report shows the service's extended error iff it is non-zero and the error text iff it is non-empty |
| DeploymentFacts.DeployAllSplit | installer/dev/install.cpp:343-350 | running a catalog a + b is running a and then, unless a threw, b; a throw means no later package is attempted |
| DeploymentFacts.ContextClearedAfterRun | installer/dev/install.cpp:347-349 | after a loop that returns, the error context is 0, "" and GUID_NULL |
| DeploymentFacts.DryRunRunMakesNoRequests | installer/dev/install.cpp:241-245 | a dry run over any catalog makes no request and gives the cursor no stage but GetPackageProperties |
| DeploymentFacts.RunLeavesNoTempFiles | installer/dev/install.cpp:231-234 | when every delete succeeds, a run leaves no new temporary file |
| DeploymentFacts.ProvisioningNeverChangesRunResult | installer/dev/install.cpp:269-282 | the provisioning outcomes never change how the package loop ends |
| DeploymentFacts.PackageLoopMakesNoLicenseRequest | installer/dev/install.cpp:339-353 | the package loop makes no license request |
| DeploymentFacts.LicenseRequests | installer/dev/install.cpp:311-326 | one install request per license, same length |
| DeploymentFacts.LicenseRequestsInOrder | installer/dev/install.cpp:311-326 | the k-th request installs the k-th license |
| DeploymentFacts.LicenseRequestsPrefix | installer/dev/install.cpp:311-326 | installing the first n licenses is installing the first, then the next n - 1 |
| DeploymentFacts.FirstFailed | installer/dev/install.cpp:332 | the index of the first failed result: every earlier result succeeded, and the one there failed unless no result did |
| DeploymentFacts.Attempted | installer/dev/install.cpp:311-333 | the number of licenses the loop reaches, at most all of them |
| DeploymentFacts.AttemptedStep | installer/dev/install.cpp:326-333 | a failed first license is the only one reached; otherwise the loop reaches it and those after it that the rest of the loop reaches |
| DeploymentFacts.LicenseLoopFrame | installer/dev/install.cpp:311-333 | the license loop never changes the stage or the error context, and in a dry run it installs nothing and returns S_OK |
| DeploymentFacts.LicenseLoopResult | installer/dev/install.cpp:326-336 | the license loop returns the first failed license's code, or S_OK when none failed |
| DeploymentFacts.LicenseLoopStopsAtFirstFailure | installer/dev/install.cpp:311-333 | the licenses are installed in order up to and including the first failure, or all of them |
| DeploymentFacts.LicensesBeforePackages | installer/dev/install.cpp:287-295 | the license part adds only license requests and the package part none after it; a failed license ends Deploy there, with its code and no package request |
| DeploymentFacts.ProvisioningNeverChangesExitCode | installer/dev/install.cpp:285-299 | the provisioning outcomes never change Deploy's result |
| Deployment.Initial | installer/dev/install.cpp:17-21 | the program starts with no stage, no current package, an empty error context, the given temporary files, and nothing requested or printed |
| Deployment.RemoveTempFile | installer/dev/install.cpp:231-234 | the scope guard's delete only ever removes the one file: it is gone exactly when the delete succeeds or it was not there, every other file stays, and nothing else in the state changes |
| Deployment.ClearErrorContext | installer/dev/install.cpp:347-349 | the reset leaves the error context at 0, "" and GUID_NULL and changes nothing else |
| DeploymentFacts.AddAgreesWithAsWritten | installer/dev/install.cpp:53-73 | the corrected add and the add as written agree in state and result on every outcome except a failure with 0x80073CFB or the bare code 15611 |
| Install.Installer.MoveTo | installer/dev/install.cpp:211 | assigning g_installStage (as at lines 27, 211, 247, 257, 272 and 308) sets the cursor and appends the new stage to its history, nothing else |
| Install.Installer.Print | installer/dev/install.cpp:236-239 | a console write (as at lines 238, 264-265, 278-279, 315 and 329-330) appends the line unless quiet, nothing else |
| Install.Installer.constructor | installer/dev/install.cpp:17-21 | the globals start as None, no package, S_OK, "" and GUID_NULL |
| Install.Installer.RegisterPackage | installer/dev/install.cpp:25-46 | moves the cursor to RegisterPackage and requests registration by full name; success returns S_OK and leaves the error context alone; failure returns the operation's code and fills all three error fields |
| Install.Installer.AddPackage | installer/dev/install.cpp:48-74 | success returns S_OK and leaves the error context alone; a failure other than "already exists" returns the add's code and fills all three error fields; "already exists" registers instead |
| Install.Installer.ProvisionPackage | installer/dev/install.cpp:76-91 | success returns S_OK with the context unchanged; failure returns the operation's code and records only the activity id |
| Install.Installer.DeployStaged | installer/dev/install.cpp:241-282 | updates the globals in place exactly as Deployment.DeployStaged describes |
| Install.Installer.DeployPackageFromResource | installer/dev/install.cpp:207-283 | updates the globals and the temporary files in place exactly as Deployment.DeployPackage describes |
| Install.Installer.DeployPackages | installer/dev/install.cpp:339-353 | the loop, with the error reset after each package, ends in the state and with the result of Deployment.DeployPackages |
| Install.Installer.InstallLicenses | installer/dev/install.cpp:301-337 | the loop with its early return ends in the state and with the result of Deployment.InstallLicenses |
| Install.Installer.Deploy | installer/dev/install.cpp:285-299 | licenses, then packages, ending in the state and with the result of Deployment.Deploy |

## Left out

- Resource loading and manifest parsing (install.cpp:150-198) are foreign COM calls. Their outcome
  is the `properties` input: a `PackageProperties` value, or the failure that was thrown.
- Stream copying (install.cpp:200-205, 250-255) is the single `copy` outcome, which returns or
  throws. File contents and sizes are not modelled.
- `IsWow64Process2` is the `nativeMachine` input, a machine type or the failure that was thrown.
  The process machine it also reports is unused.
- The `.get()` wait on each deployment operation is taken as waiting only. A deployment operation's
  outcome is `Completed` or `NotCompleted` with its error code, extended code, text and activity
  id. Any exception the asynchronous library may raise itself is not modelled.
- The text `FormatMessage` finds is not modelled. A failed code is always shown as a
  `SystemMessage` section, including when no text is found.
- The extended error's own system message text is not modelled either. It is part of the
  `ExtendedError` section.
- Console formatting (hex output, the fixed prefixes) is not modelled. Each console line records
  its kind, its result code and its sections.
- Trace logging is not modelled: `LOG_IF_FAILED` for provisioning, the logged delete failure, and
  the activity object.
- The lifetime of the string behind `g_deploymentErrorText` is not modelled. It is a value.
- The license installer (`WAR_PROCESS_LICENSES`) is modelled only as:
  - the `processLicenses` flag;
  - one result code per license;
  - an install request per license.

  A throw from its constructor is not modelled.
- Install.Installer.AddPackage: this method and every workflow member that reaches it use the
  corrected "already exists" guard of "## Findings", not the comparison at install.cpp:56. The
  members are Deployment.Add, Deployment.DeployStaged, Deployment.DeployPackage,
  Deployment.DeployAll, Deployment.DeployPackages, Deployment.Deploy, Install.Installer.AddPackage,
  Install.Installer.DeployStaged, Install.Installer.DeployPackageFromResource,
  Install.Installer.DeployPackages and Install.Installer.Deploy. They depart from the code as written
  only for an add that fails with 0x80073CFB, which the code throws and the model registers, and
  for an add that "fails" with the bare code 15611, which the code registers and the model passes
  through as the add's result, with the add's error detail stored
  (DeploymentFacts.AddAgreesWithAsWritten). Deployment.AddAsWritten models the code as written.
- The catalogs `c_packages` and `c_licenses` are parameters. packages.h is not part of this model.
  `DeploymentBehavior` is reduced to `Framework` and `Application`, because the installer only ever
  compares it with `Framework` (install.cpp:128).
- GUIDs are natural numbers, and `GUID_NULL` is zero.
- The temporary directory, the "WAR" prefix and the uniqueness of the name are not modelled. The
  name is the `tempFile` input. `TempFileRemovedOnEveryExit` assumes the name is new.
- `g_currentPackageFullName` is kept, but nothing in this file reads it.

## Findings

| source | as written | input that shows it | evidently intended | confidence | as-written member | corrected member |
|---|---|---|---|---|---|---|
| installer/dev/install.cpp:56 | the add operation's HRESULT is compared with the bare Win32 code ERROR_PACKAGE_ALREADY_EXISTS (15611), which no failure HRESULT can equal | an add that fails with HRESULT_FROM_WIN32(ERROR_PACKAGE_ALREADY_EXISTS) = 0x80073CFB: the guard is false, so the installer reports the error and throws instead of registering | compare with HRESULT_FROM_WIN32(ERROR_PACKAGE_ALREADY_EXISTS), so that an existing package is registered by full name | not executed; high | Deployment.AddAsWritten, DeploymentFacts.AsWrittenAddRejectsExistingPackage, DeploymentFacts.AsWrittenGuardNeverFiresOnFailure | Deployment.Add, Deployment.DeployStaged, Deployment.DeployPackage, Deployment.DeployAll, Deployment.DeployPackages, Deployment.Deploy, Install.Installer.AddPackage, Install.Installer.DeployStaged, Install.Installer.DeployPackageFromResource, Install.Installer.DeployPackages, Install.Installer.Deploy, DeploymentFacts.AlreadyExistsFallsBackToRegister, DeploymentFacts.AddAgreesWithAsWritten |
