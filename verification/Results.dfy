/** Results of the checks in the program: a value, or the code of the error it throws. */
module Results {

  /** The codes of the errors that are thrown; the last ones carry the code of the field they are about. */
  datatype ErrorCode =
    | ActorBindingMismatch | ActorBindingRequired | ActorNotRegistered | ActorRoleForbidden | CaseIdInvalid
    | CaseIdRequired | CaseNotFound | CaseVersionConflict | CitizenAdoptionAcceptanceInvalid
    | CitizenAdoptionBindingInvalid | CitizenAdoptionBundleInvalid | CitizenAdoptionProofInvalid
    | CitizenAdoptionReceiptExpired | CitizenAdoptionRecordInvalid | CitizenAdoptionRequired
    | CitizenAdoptionShapeInvalid
    | CitizenAdoptionStatusInvalid | CitizenAdoptionStatusStale | CitizenAdoptionTimeInvalid
    | CitizenBriefAlreadyCurrent | CitizenBriefBindingDuplicate | CitizenBriefBindingInvalid
    | CitizenBriefBindingStale | CitizenBriefBindingsRequired | CitizenBriefDepartmentsIncomplete
    | CitizenBriefInvalid | CitizenBriefReviewIncomplete | DepartmentActorScopeMismatch
    | DepartmentAgentNotAssigned | DepartmentDepartmentNotRequired | DepartmentDraftAlreadyRecorded
    | DepartmentDraftChecksumInvalid | DepartmentDraftInvalid | DepartmentDraftNotRecorded
    | DepartmentDraftTooLarge | DepartmentPackageAlreadyRecorded | DepartmentPackageChecksumInvalid
    | DepartmentPackageInvalid | DepartmentPackageNotAssigned | DepartmentReferenceInvalid
    | DepartmentResponseChecksumInvalid | DepartmentResponseNotFound | DepartmentRetractionInvalid
    | DepartmentReviewAlreadyRecorded | DepartmentReviewInvalid | DepartmentReviewNotAccepted
    | DepartmentReviewTimeInvalid | DepartmentReviewerNotAssigned | DepartmentReviewerNotDistinct
    | DepartmentSuggestionInvalid | DepartmentSuggestionMismatch | DiscussionAlreadyRecorded
    | DiscussionConflict | DiscussionEventInvalid | DiscussionFixtureMarkerRequired | DiscussionProofInvalid
    | DiscussionScopeInvalid | DiscussionScopeMismatch | DiscussionScopeMissing | DiscussionSignatureRequired
    | DiscussionSignerNotAllowed | EventChecksumInvalid | ExpectedCaseVersionInvalid | IdempotencyConflict
    | IdempotencyKeyInvalid | IdempotencyKeyRequired | JournalChainInvalid | ParticipationAlreadyRecorded
    | ParticipationAlreadyRetracted | ParticipationChecksumInvalid | ParticipationField | ParticipationNotFound
    | ParticipationOptionCountInconsistent | ParticipationOptionDuplicate | ParticipationReferenceInvalid
    | ParticipationResultShapeInvalidOptions | ParticipationRetractionChecksumInvalid
    | ParticipationRetractionInvalid | ParticipationReviewTimeInvalid | ParticipationSourceBriefInvalid
    | ParticipationSourceBriefMismatch | ParticipationSourceBriefRequired | ParticipationSourceBriefStale
    | ParticipationTimestampInvalid | ParticipationTimestampOrderInvalid
    | ParticipationVersionInvalidContractVersion | ParticipationWasRetracted | PayloadChecksumInvalid
    | PolicyVersionInvalid | RepresentationCountInconsistent | ReviewedOutcomeAlreadyRecorded
    | ReviewedOutcomeBriefInvalid | ReviewedOutcomeDiscussionInvalid | ReviewedOutcomeInvalid
    | ReviewedOutcomeParticipationInvalid | ReviewedOutcomeReferenceInvalid | ReviewedOutcomeSourceMismatch
    | ReviewedOutcomeSourcesRequired | ReviewedOutcomeSourcesStale | SignedSuggestionAdmissionRequired
    | SignedSuggestionAdmissionTooLate | SignedSuggestionAlreadyAdmitted | SignedSuggestionBindingInvalid
    | SignedSuggestionCaseInvalid | SignedSuggestionCaseRequired | SignedSuggestionDiscussionInvalid
    | SignedSuggestionDraftInvalid | SignedSuggestionEventInvalid | SignedSuggestionReceiptInvalid
    | SignedSuggestionScopeInvalid | SignedSuggestionSignatureInvalid | SignedSuggestionSignerInvalid
    | SignedSuggestionSummaryInvalid | SignedSuggestionTitleInvalid | SyntheticCaseContinuationUnavailable
    | TopicCaseAlreadyCreated | TopicCaseBindingInvalid | TopicCaseTimestampInvalid | TopicSuggestionInvalid
    | DepartmentValueTooLarge(field: ErrorCode)
    | ParticipationCountInvalid(field: ErrorCode)
    | ParticipationResultShapeInvalid(field: ErrorCode)
    | ParticipationValueTooLarge(field: ErrorCode)
    | PrivateFieldForbidden(field: ErrorCode)
    | RawParticipationDataForbidden(field: ErrorCode)
    | SecretMaterialForbidden(field: ErrorCode)

  datatype Option<+T> = None | Some(value: T)

  datatype Result<+T> = Ok(value: T) | Err(code: ErrorCode) {

    predicate IsFailure() {
      Err?
    }

    function PropagateFailure<U>(): Result<U>
      requires Err?
    {
      Err(code)
    }

    function Extract(): T
      requires Ok?
    {
      value
    }
  }

  datatype Outcome = Pass | Fail(code: ErrorCode) {

    predicate IsFailure() {
      Fail?
    }

    function PropagateFailure<U>(): Result<U>
      requires Fail?
    {
      Err(code)
    }
  }

  /** `if (!condition) fail(code)`. */
  function Need(condition: bool, code: ErrorCode): Outcome {
    if condition then Pass else Fail(code)
  }
}
