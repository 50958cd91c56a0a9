/** What each reason for a refusal says of the stored fields, and that no refusal gives a reason that is not so. */
module Refusals {
  import opened Sequences
  import opened Onboarding
  import opened AccountRules
  import opened AccountInvariants
  import opened MoveEffects
  import opened ReviewProgress

  ghost predicate HasRole(s: State, role: Role) {
    s.account.Some? && s.account.value.role == role
  }

  ghost predicate SomeDoc(s: State, status: DocStatus) {
    s.hasProfile && AnyDoc(s.docs, status)
  }

  /** The document a move names. */
  function Named(m: Move): Option<string> {
    match m
    case MUpload(id, _, _) => Some(id)
    case MReplace(id, _, _) => Some(id)
    case MReupload(id, _, _) => Some(id)
    case MUpdateImage(id, _, _) => Some(id)
    case MDeleteImage(id, _) => Some(id)
    case MJudge(id, _) => Some(id)
    case MRequest(id) => Some(id)
    case _ => None
  }

  ghost predicate NamedIs(s: State, m: Move, status: DocStatus) {
    Named(m).Some? && Named(m).value in s.docs && s.docs[Named(m).value].status == status
  }

  ghost predicate NamedIsAskedFor(s: State, m: Move) {
    Named(m).Some? && Named(m).value in s.docs && s.docs[Named(m).value].requested
  }

  predicate ByItsOwner(m: Move) {
    match m
    case MReplace(_, mine, _) => mine
    case MReupload(_, mine, _) => mine
    case MUpdateImage(_, mine, _) => mine
    case MDeleteImage(_, mine) => mine
    case _ => true
  }

  /** The status that the route of a move admits. */
  ghost predicate RouteAdmits(s: State, m: Move) {
    match m
    case MSubmitForm(_, _) => InStatus(s, PendingProfile)
    case MUpload(_, _, _) => InStatus(s, PendingProfile)
        || (InStatus(s, PendingApproval) && HasRole(s, ExternalPartner))
    case MReplace(_, _, _) => InStatus(s, PendingProfile) || InStatus(s, PendingApproval)
    case _ => InStatus(s, Active)
  }

  /** The step that a move is for. */
  function StepOf(m: Move): string {
    if m.MSubmitForm? then StepName(m.form) else "documents"
  }

  ghost predicate AtItsStep(s: State, m: Move) {
    s.account.Some? && CurrentStep(OnboardingSteps(s.account.value.role), s.progress) == Some(StepOf(m))
  }

  /** What a reason says. */
  ghost predicate IsTrue(s: State, m: Move, why: Refusal) {
    match why
    case EmailRegisteredWithGoogle => s.account.Some? && !s.account.value.hasPassword && s.account.value.googleLinked
    case EmailAlreadyExists => s.account.Some? && (m.MRegister? ==> s.account.value.verified)
    case PhoneAlreadyExists =>
      s.account.None? && ((m.MRegister? && m.phoneTaken) || (m.MRegisterWithGoogle? && m.phoneTaken))
    case AccountNotFound => s.account.None?
    case TokenRefused => !InStatus(s, Inactive)
    case InvalidOtp => m == MVerifyOtp(false)
    case AppNotAuthorized => m.MLoginWithGoogle? && s.account.Some? && m.app != AppOf(s.account.value.role)
    case RouteForbidden => !RouteAdmits(s, m)
    case ProfileNotFound =>
      if m.MJudge? || m.MRequest? then
        !s.hasProfile || s.account.None? || HasRole(s, Citizen) || HasRole(s, Admin)
      else !s.hasProfile && m != MSubmitForm(Information, true) && m != MSubmitForm(Information, false)
    case StepOutOfOrder => !AtItsStep(s, m) && !(m.MUpload? && HasRole(s, ExternalPartner))
    case AlreadyInformed => m.MSubmitForm? && m.form == Information && s.hasProfile
    case InvalidForm => m.MSubmitForm? && !m.formOk
    case DuplicateImageType => m.MUpload? && exists x :: x in s.docs && s.docs[x].fileType == m.fileType
    case MediaNotFound => Named(m).Some? && Named(m).value !in s.docs
    case OnlyRejectedReupload => !NamedIs(s, m, DocRejected)
    case ReuploadNotRequested => !NamedIsAskedFor(s, m)
    case NotYourImage =>
      || !ByItsOwner(m) || !s.hasProfile
      || (m.MReplace? && s.account.Some? && m.id in s.docs && s.docs[m.id].ownerType != s.account.value.role)
    case AccountNotAwaitingChanges => !InStatus(s, NeedChanges)
    case DocumentRejected => NamedIs(s, m, DocRejected)
    case DocumentsFrozen => !InStatus(s, PendingApproval) && !InStatus(s, NeedChanges)
    case MediaAlreadyReviewed => m.MJudge? && m.verdict == DocPending
    case DriverManagedInOdoo => HasRole(s, Collector)
    case ReuploadNotReviewable => !InStatus(s, PendingApproval) && !InStatus(s, NeedChanges)
    case ReuploadNeedsRejectedDocument => !NamedIs(s, m, DocRejected)
    case ReuploadAlreadyRequested => NamedIsAskedFor(s, m)
    case OnlyRejectedCanReopen => !InStatus(s, Rejected)
    case NothingRequested => forall id :: id in s.docs ==> !s.docs[id].requested
    case NoProfileRepo => HasRole(s, Admin)
    case ApprovedAccountIsFinal => InStatus(s, Active)
    case AccountAwaitingApplicant => InStatus(s, NeedChanges)
    case InvalidStatusTransition =>
      if m.MBlock? then m == MBlock(false) && !InStatus(s, Blocked)
      else !InStatus(s, PendingApproval) && !InStatus(s, Rejected)
    case AccountAlreadyInStatus =>
      if m.MBlock? then InStatus(s, if m.block then Blocked else Active)
      else m == MDecide(Reject) && InStatus(s, Rejected)
    case ApprovalBlockedByRejectedDocument => m == MDecide(Approve) && SomeDoc(s, DocRejected)
    case RejectionNeedsEveryDocumentJudged => m == MDecide(Reject) && SomeDoc(s, DocPending)
    case BlockNeedsApprovedAccount => m == MBlock(true) && !InStatus(s, Active)
  }

  ghost predicate NoLie(s: State, m: Move) {
    Apply(s, m).1.Refused? ==> IsTrue(s, m, Apply(s, m).1.why)
  }

  lemma SignInDoesNotLie(s: State, m: Move)
    requires IsSignIn(m)
    ensures NoLie(s, m)
  {
    if m.MLoginWithGoogle? && s.account.Some? { OneAppEach(m.app, s.account.value.role); }
  }

  lemma FormDoesNotLie(s: State, m: Move)
    requires m.MSubmitForm?
    ensures NoLie(s, m)
  {}

  lemma UploadDoesNotLie(s: State, m: Move)
    requires m.MUpload?
    ensures NoLie(s, m)
  {}

  lemma ReplaceDoesNotLie(s: State, m: Move)
    requires m.MReplace? || m.MReupload?
    ensures NoLie(s, m)
  {}

  lemma OwnerDoesNotLie(s: State, m: Move)
    requires m.MUpdateImage? || m.MDeleteImage?
    ensures NoLie(s, m)
  {}

  lemma JudgeDoesNotLie(s: State, m: Move)
    requires m.MJudge? || m.MRequest?
    ensures NoLie(s, m)
  {}

  lemma ReviewDoesNotLie(s: State, m: Move)
    requires m.MReopen? || m.MCancel?
    ensures NoLie(s, m)
  {}

  lemma BlockDoesNotLie(s: State, m: Move)
    requires m.MBlock?
    ensures NoLie(s, m)
  {}

  lemma DecisionDoesNotLie(s: State, m: Move)
    requires m.MDecide?
    ensures NoLie(s, m)
  {}

  /** Whatever the state and the move, the reason that a refusal gives is true. */
  lemma RefusalsAreTrue(s: State, m: Move)
    ensures Apply(s, m).1.Refused? ==> IsTrue(s, m, Apply(s, m).1.why)
  {
    if IsSignIn(m) {
      SignInDoesNotLie(s, m);
    } else if m.MSubmitForm? {
      FormDoesNotLie(s, m);
    } else if m.MUpload? {
      UploadDoesNotLie(s, m);
    } else if m.MJudge? || m.MRequest? {
      JudgeDoesNotLie(s, m);
    } else if m.MDecide? {
      DecisionDoesNotLie(s, m);
    } else if m.MBlock? {
      BlockDoesNotLie(s, m);
    } else if IsReview(m) {
      ReviewDoesNotLie(s, m);
    } else if m.MReplace? || m.MReupload? {
      ReplaceDoesNotLie(s, m);
    } else {
      OwnerDoesNotLie(s, m);
    }
  }

  /** A driver's application is decided elsewhere: no reviewer's move on the account itself is carried out. */
  lemma DriversAreDecidedElsewhere(s: State, m: Move)
    requires HasRole(s, Collector) && (m.MReopen? || m.MCancel? || m.MDecide? || m.MBlock? || m.MRequest?)
    ensures Apply(s, m).0 == s && Apply(s, m).1.Refused?
    ensures !m.MRequest? ==> Apply(s, m).1 == Refused(DriverManagedInOdoo)
  {}
}
