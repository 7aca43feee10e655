/** The stage cursor, the captured deployment error detail, and which sections
    the error reporter prints for a result code. */
module ErrorReport {
  import opened HResults

  /** The process-wide stage cursor g_installStage. */
  datatype InstallStage =
    | None
    | InstallLicense
    | GetPackageProperties
    | CreatePackageURI
    | AddPackage
    | RegisterPackage
    | ProvisionPackage

  /** The order in which one package's workflow passes the stages. */
  function Rank(stage: InstallStage): nat
  {
    match stage
    case None => 0
    case InstallLicense => 1
    case GetPackageProperties => 2
    case CreatePackageURI => 3
    case AddPackage => 4
    case RegisterPackage => 5
    case ProvisionPackage => 6
  }

  /** An activity (correlation) identifier; GUID_NULL is zero. */
  type Guid = nat
  const GUID_NULL: Guid := 0

  /** The detail the deployment service returns with a failure, kept in the
      globals g_deploymentErrorExtendedHresult, g_deploymentErrorText and
      g_deploymentErrorActivityId. */
  datatype ErrorContext = ErrorContext(extendedHresult: HResult, errorText: string, activityId: Guid)

  /** The initial and the reset value of the error context. */
  const NO_ERROR: ErrorContext := ErrorContext(S_OK, "", GUID_NULL)

  /** One piece of what ShowErrorMessage writes. SystemMessage stands for the
      system message table's text for the code. */
  datatype Section =
    | Newline
    | SystemMessage(hr: HResult)
    | ExtendedError(extendedHr: HResult)
    | ErrorMessage(text: string)
    | ElevationTip

  /** The stages in which the deployment service's extended error and error
      text belong to the failure being reported. */
  predicate ShowsDeploymentDetail(stage: InstallStage)
  {
    stage == AddPackage || stage == RegisterPackage
  }

  /** The order in which ShowErrorMessage writes its sections. */
  function SectionRank(section: Section): nat
  {
    match section
    case Newline => 0
    case SystemMessage(_) => 1
    case ExtendedError(_) => 2
    case ErrorMessage(_) => 3
    case ElevationTip => 4
  }

  /** The sections ShowErrorMessage emits for `hr`, given the stage cursor and
      the captured error context, in output order. */
  function ShowErrorMessage(hr: HResult, stage: InstallStage, context: ErrorContext): (sections: seq<Section>)
    ensures Succeeded(hr) ==> sections == [Newline]
    ensures Failed(hr) ==> |sections| > 0 && sections[0] == SystemMessage(hr) && Newline !in sections
    ensures ExtendedError(context.extendedHresult) in sections
            <==> Failed(hr) && context.extendedHresult != 0 && ShowsDeploymentDetail(stage)
    ensures ErrorMessage(context.errorText) in sections
            <==> Failed(hr) && context.errorText != [] && ShowsDeploymentDetail(stage)
    ensures ElevationTip in sections <==> stage == ProvisionPackage && hr == HR_ACCESS_DENIED
    ensures forall i, j :: 0 <= i < j < |sections| ==> SectionRank(sections[i]) < SectionRank(sections[j])
    ensures forall section :: section in sections ==>
              section in {Newline, SystemMessage(hr), ExtendedError(context.extendedHresult),
                          ErrorMessage(context.errorText), ElevationTip}
  {
    if Succeeded(hr) then [Newline]
    else
      [SystemMessage(hr)]
      + (if context.extendedHresult != 0 && ShowsDeploymentDetail(stage)
         then [ExtendedError(context.extendedHresult)] else [])
      + (if |context.errorText| != 0 && ShowsDeploymentDetail(stage)
         then [ErrorMessage(context.errorText)] else [])
      + (if stage == ProvisionPackage && hr == HR_ACCESS_DENIED then [ElevationTip] else [])
  }

  /** Outside the add and register stages nothing captured from the deployment
      service is shown, whatever the context holds. */
  lemma NoStaleDetailOutsideDeployment(hr: HResult, stage: InstallStage, context: ErrorContext)
    requires !ShowsDeploymentDetail(stage)
    ensures ShowErrorMessage(hr, stage, context) == ShowErrorMessage(hr, stage, NO_ERROR)
  {
  }
}
