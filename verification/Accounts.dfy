/**
 * The life of one account: registration and sign-in, the onboarding application with its documents, the
 * reviewer's moves and the applicant's replies. Each move is a function of the stored state; AccountService.dfy
 * carries the moves out on the stored rows.
 */
module AccountRules {
  import opened Sequences
  import opened Onboarding

  datatype Role = Citizen | Institutions | Collector | Factory | ExternalPartner | Admin
  datatype AccountStatus = Inactive | PendingProfile | PendingApproval | NeedChanges | Active | Rejected | Blocked
  datatype DocStatus = DocPending | DocApproved | DocRejected
  datatype FileType = IndustrialReg | License | IdCardFront | IdCardBack
  datatype App = UserApp | CollectorApp | FactoryApp | AdminApp | UnknownApp
  datatype Form = Information | Location | Materials
  datatype Decision = Approve | Reject

  /** One uploaded document and its stored file; `requested` says the reviewer has asked for it again. */
  datatype Doc = Doc(fileType: FileType, ownerType: Role, status: DocStatus, requested: bool, file: string)

  datatype Account = Account(role: Role, status: AccountStatus, verified: bool, hasPassword: bool, googleLinked: bool)

  /** Everything stored about one email address: the account row, its wallets, profile, progress and documents. */
  datatype State = State(
    account: Option<Account>, wallets: nat, hasProfile: bool, progress: Option<seq<string>>, docs: map<string, Doc>)

  datatype Reply = Accepted | Unchanged | Refused(why: Refusal)

  datatype Refusal =
    | EmailRegisteredWithGoogle | EmailAlreadyExists | PhoneAlreadyExists | AccountNotFound | TokenRefused
    | InvalidOtp | AppNotAuthorized | RouteForbidden | ProfileNotFound | StepOutOfOrder | InvalidForm
    | AlreadyInformed | DuplicateImageType | MediaNotFound | OnlyRejectedReupload | ReuploadNotRequested
    | NotYourImage | AccountNotAwaitingChanges | DocumentRejected | DocumentsFrozen | MediaAlreadyReviewed
    | DriverManagedInOdoo | ReuploadNotReviewable | ReuploadNeedsRejectedDocument | ReuploadAlreadyRequested
    | OnlyRejectedCanReopen | NothingRequested | NoProfileRepo | ApprovedAccountIsFinal | AccountAwaitingApplicant
    | InvalidStatusTransition | AccountAlreadyInStatus | ApprovalBlockedByRejectedDocument
    | RejectionNeedsEveryDocumentJudged | BlockNeedsApprovedAccount

  const NOTHING := State(None, 0, false, None, map[])

  // ---------------------------------------------------------------- shared rules

  function OnboardingSteps(role: Role): seq<string> {
    match role
    case Factory => ["information", "location", "documents", "materials"]
    case Collector => ["information", "location", "documents"]
    case Institutions => ["information", "location", "documents", "materials"]
    case ExternalPartner => ["information", "location", "materials"]
    case Citizen => []
    case Admin => []
  }

  function StepName(form: Form): string {
    match form case Information => "information" case Location => "location" case Materials => "materials"
  }

  predicate WalletEligible(role: Role) {
    role == Citizen || role == Institutions || role == Factory || role == ExternalPartner
  }

  /** The roles whose applications are decided here. */
  predicate Reviewable(role: Role) {
    role == Factory || role == Institutions || role == ExternalPartner
  }

  predicate AllowedIn(app: App, role: Role) {
    match app
    case UserApp => role == Citizen || role == Institutions
    case CollectorApp => role == Collector
    case FactoryApp => role == Factory || role == ExternalPartner
    case AdminApp => role == Admin
    case UnknownApp => false
  }

  /** Only Google can sign this account in: no password, and a Google identity. */
  predicate IsGoogleOnly(a: Account) {
    !a.hasPassword && a.googleLinked
  }

  function EnsureWallet(wallets: nat, role: Role): nat {
    if WalletEligible(role) && wallets == 0 then 1 else wallets
  }

  predicate UnderReview(status: AccountStatus) {
    status == PendingApproval || status == NeedChanges
  }

  /** Some document is still asked for. */
  predicate Outstanding(docs: map<string, Doc>) {
    exists id :: id in docs && docs[id].requested
  }

  predicate OutstandingOf(docs: map<string, Doc>, ownerType: Role) {
    exists id :: id in docs && docs[id].requested && docs[id].ownerType == ownerType
  }

  predicate AnyDoc(docs: map<string, Doc>, status: DocStatus) {
    exists id :: id in docs && docs[id].status == status
  }

  function Withdrawn(docs: map<string, Doc>): (r: map<string, Doc>)
    ensures r.Keys == docs.Keys
    ensures forall id :: id in docs ==> r[id] == docs[id].(requested := false)
  {
    map id | id in docs :: docs[id].(requested := false)
  }

  function PendingApproved(docs: map<string, Doc>): (r: map<string, Doc>)
    ensures r.Keys == docs.Keys
    ensures forall id :: id in docs ==>
      r[id] == if docs[id].status == DocPending then Cleared(docs[id]) else docs[id]
  {
    map id | id in docs :: if docs[id].status == DocPending then Cleared(docs[id]) else docs[id]
  }

  /** Acceptable, and not asked for. */
  function Cleared(d: Doc): Doc {
    d.(status := DocApproved, requested := false)
  }

  function WithStatus(s: State, status: AccountStatus): State
    requires s.account.Some?
  {
    s.(account := Some(s.account.value.(status := status)))
  }

  /** Back to the queue once nothing is asked for any more. */
  function Settled(s: State): State {
    if !Outstanding(s.docs) && s.account.Some? && s.account.value.status == NeedChanges then
      WithStatus(s, PendingApproval)
    else s
  }

  // ---------------------------------------------------------------- signing up and in

  function FirstStatus(role: Role): AccountStatus {
    if role == Citizen || role == Admin then Active else PendingProfile
  }

  function Register(s: State, role: Role, phoneTaken: bool): (State, Reply) {
    if s.account.Some? then
      var a := s.account.value;
      if IsGoogleOnly(a) then (s, Refused(EmailRegisteredWithGoogle))
      else if !a.verified then (s, Unchanged)
      else (s, Refused(EmailAlreadyExists))
    else if phoneTaken then (s, Refused(PhoneAlreadyExists))
    else (s.(account := Some(Account(role, Inactive, false, true, false))), Accepted)
  }

  function RegisterWithGoogle(s: State, role: Role, phoneTaken: bool): (State, Reply) {
    if s.account.Some? then (s, Refused(EmailAlreadyExists))
    else if phoneTaken then (s, Refused(PhoneAlreadyExists))
    else
      var status := FirstStatus(role);
      (s.(account := Some(Account(role, status, true, false, true)),
          wallets := if status == Active then EnsureWallet(s.wallets, role) else s.wallets), Accepted)
  }

  function VerifyOtpCode(s: State, codeOk: bool): (State, Reply) {
    if s.account.None? then (s, Refused(AccountNotFound))
    else
      var a := s.account.value;
      if a.status != Inactive then (s, Refused(TokenRefused))
      else if !codeOk then (s, Refused(InvalidOtp))
      else
        var status := if a.role == Citizen then Active else PendingProfile;
        (s.(account := Some(a.(verified := true, status := status)),
            wallets := if status == Active then EnsureWallet(s.wallets, a.role) else s.wallets), Accepted)
  }

  function LoginWithGoogle(s: State, app: App): (State, Reply) {
    if s.account.None? then (s, Refused(AccountNotFound))
    else
      var a := s.account.value;
      if !AllowedIn(app, a.role) then (s, Refused(AppNotAuthorized))
      else
        var status := if !a.verified && a.status == Inactive then FirstStatus(a.role) else a.status;
        (s.(account := Some(a.(verified := true, googleLinked := true, status := status)),
            wallets := if status == Active then EnsureWallet(s.wallets, a.role) else s.wallets), Accepted)
  }

  // ---------------------------------------------------------------- the application

  /** The step is recorded, and the application is submitted when none is left. */
  function StepDone(s: State, step: string): State
    requires s.account.Some?
  {
    var steps := OnboardingSteps(s.account.value.role);
    var s' := s.(progress := Some(AfterStep(steps, s.progress, step)));
    if CurrentStep(steps, s'.progress).None? then WithStatus(s', PendingApproval) else s'
  }

  function SubmitForm(s: State, form: Form, formOk: bool): (State, Reply) {
    if s.account.None? then (s, Refused(AccountNotFound))
    else
      var a := s.account.value;
      if a.status != PendingProfile then (s, Refused(RouteForbidden))
      else if form != Information && !s.hasProfile then (s, Refused(ProfileNotFound))
      else if CurrentStep(OnboardingSteps(a.role), s.progress) != Some(StepName(form)) then (s, Refused(StepOutOfOrder))
      else if form == Information && s.hasProfile then (s, Refused(AlreadyInformed))
      else if !formOk then (s, Refused(InvalidForm))
      else (StepDone(if form == Information then s.(hasProfile := true) else s, StepName(form)), Accepted)
  }

  /** How many documents complete the step; a free facility has no such number. */
  function RequiredCount(role: Role): Option<nat> {
    match role
    case Collector => Some(2)
    case Factory => Some(2)
    case Institutions => Some(1)
    case _ => None
  }

  predicate HasType(docs: map<string, Doc>, t: FileType) {
    exists id :: id in docs && docs[id].fileType == t
  }

  /** While applying; a free facility, whose documents are optional, also while its application is undecided. */
  predicate MayUpload(a: Account) {
    a.status == PendingProfile || (a.status == PendingApproval && a.role == ExternalPartner)
  }

  function UploadImage(s: State, id: string, t: FileType, file: string): (State, Reply)
    requires id !in s.docs
  {
    if s.account.None? then (s, Refused(AccountNotFound))
    else
      var a := s.account.value;
      if !MayUpload(a) then (s, Refused(RouteForbidden))
      else if !s.hasProfile then (s, Refused(ProfileNotFound))
      else if a.role != ExternalPartner && CurrentStep(OnboardingSteps(a.role), s.progress) != Some("documents") then
        (s, Refused(StepOutOfOrder))
      else if HasType(s.docs, t) then (s, Refused(DuplicateImageType))
      else
        var s' := s.(docs := s.docs[id := Doc(t, a.role, DocPending, false, file)]);
        (if RequiredCount(a.role) == Some(|s'.docs|) then StepDone(s', "documents") else s', Accepted)
  }

  /** The applicant swaps a document that is not rejected while the application is still open. */
  function ReplaceDocument(s: State, id: string, mine: bool, file: string): (State, Reply) {
    if s.account.None? then (s, Refused(AccountNotFound))
    else
      var a := s.account.value;
      if a.status != PendingProfile && a.status != PendingApproval then (s, Refused(RouteForbidden))
      else if !s.hasProfile then (s, Refused(ProfileNotFound))
      else if id !in s.docs then (s, Refused(MediaNotFound))
      else if !mine || s.docs[id].ownerType != a.role then (s, Refused(NotYourImage))
      else if s.docs[id].status == DocRejected then (s, Refused(DocumentRejected))
      else (s.(docs := s.docs[id := s.docs[id].(status := DocPending, file := file)]), Accepted)
  }

  /** Unread again, with a new file and nothing asked for. */
  function Renewed(d: Doc, file: string): Doc {
    d.(status := DocPending, requested := false, file := file)
  }

  /** The applicant answers a request. */
  function ReuploadRejectedImage(s: State, id: string, mine: bool, file: string): (State, Reply) {
    if id !in s.docs then (s, Refused(MediaNotFound))
    else
      var d := s.docs[id];
      if d.status != DocRejected then (s, Refused(OnlyRejectedReupload))
      else if !d.requested then (s, Refused(ReuploadNotRequested))
      else if !mine || !s.hasProfile then (s, Refused(NotYourImage))
      else if s.account.None? || s.account.value.status != NeedChanges then (s, Refused(AccountNotAwaitingChanges))
      else
        var s' := s.(docs := s.docs[id := Renewed(d, file)]);
        (if OutstandingOf(s'.docs, d.ownerType) then s' else WithStatus(s', PendingApproval), Accepted)
  }

  // ---------------------------------------------------------------- an account that has been let in

  /** The owner of an ACTIVE account exchanges the file of a document; its verdict stays. */
  function UpdateImage(s: State, id: string, mine: bool, file: string): (State, Reply) {
    if s.account.None? then (s, Refused(AccountNotFound))
    else if s.account.value.status != Active then (s, Refused(RouteForbidden))
    else if id !in s.docs then (s, Refused(MediaNotFound))
    else if !mine || !s.hasProfile then (s, Refused(NotYourImage))
    else (s.(docs := s.docs[id := s.docs[id].(file := file)]), Accepted)
  }

  /** Or deletes the document. */
  function DeleteImage(s: State, id: string, mine: bool): (State, Reply) {
    if s.account.None? then (s, Refused(AccountNotFound))
    else if s.account.value.status != Active then (s, Refused(RouteForbidden))
    else if id !in s.docs then (s, Refused(MediaNotFound))
    else if !mine || !s.hasProfile then (s, Refused(NotYourImage))
    else (s.(docs := s.docs - {id}), Accepted)
  }

  // ---------------------------------------------------------------- the reviewer

  /** The account a document belongs to, as far as the review routes can resolve it. */
  predicate Resolves(s: State) {
    s.account.Some? && s.hasProfile && (Reviewable(s.account.value.role) || s.account.value.role == Collector)
  }

  /** Why a document cannot be judged now. */
  function VerdictRefusal(s: State, id: string, verdict: DocStatus): Option<Refusal> {
    if id !in s.docs then Some(MediaNotFound)
    else if !Resolves(s) then Some(ProfileNotFound)
    else if !UnderReview(s.account.value.status) then Some(DocumentsFrozen)
    else if verdict == DocPending then Some(MediaAlreadyReviewed)
    else None
  }

  function UpdateMediaStatus(s: State, id: string, verdict: DocStatus): (State, Reply) {
    var why := VerdictRefusal(s, id, verdict);
    if why.Some? then (s, Refused(why.value))
    else if s.docs[id].status == verdict then (s, Unchanged)
    else if verdict == DocApproved then (Settled(s.(docs := s.docs[id := Cleared(s.docs[id])])), Accepted)
    else (s.(docs := s.docs[id := s.docs[id].(status := verdict)]), Accepted)
  }

  function RequestReupload(s: State, id: string): (State, Reply) {
    if id !in s.docs then (s, Refused(MediaNotFound))
    else if !Resolves(s) then (s, Refused(ProfileNotFound))
    else if s.account.value.role == Collector then (s, Refused(DriverManagedInOdoo))
    else if !UnderReview(s.account.value.status) then (s, Refused(ReuploadNotReviewable))
    else if s.docs[id].status != DocRejected then (s, Refused(ReuploadNeedsRejectedDocument))
    else if s.docs[id].requested then (s, Refused(ReuploadAlreadyRequested))
    else (WithStatus(s.(docs := s.docs[id := s.docs[id].(requested := true)]), NeedChanges), Accepted)
  }

  function ReopenApplication(s: State): (State, Reply) {
    if s.account.None? then (s, Refused(AccountNotFound))
    else if s.account.value.role == Collector then (s, Refused(DriverManagedInOdoo))
    else if s.account.value.status != Rejected then (s, Refused(OnlyRejectedCanReopen))
    else (WithStatus(s, PendingApproval), Accepted)
  }

  function CancelReuploadRequests(s: State): (State, Reply) {
    if s.account.None? then (s, Refused(AccountNotFound))
    else if s.account.value.role == Collector then (s, Refused(DriverManagedInOdoo))
    else if s.account.value.role == Admin then (s, Refused(NoProfileRepo))
    else if !s.hasProfile then (s, Refused(ProfileNotFound))
    else if !Outstanding(s.docs) then (s, Refused(NothingRequested))
    else (Settled(s.(docs := Withdrawn(s.docs))), Accepted)
  }

  /** Why a decision cannot be taken now. */
  function DecisionRefusal(s: State, decision: Decision): Option<Refusal> {
    if s.account.None? then Some(AccountNotFound)
    else
      var a := s.account.value;
      if a.role == Collector then Some(DriverManagedInOdoo)
      else if a.status == Active then Some(ApprovedAccountIsFinal)
      else if a.status == NeedChanges then Some(AccountAwaitingApplicant)
      else if a.status != PendingApproval && a.status != Rejected then Some(InvalidStatusTransition)
      else if a.status == Rejected && decision == Reject then Some(AccountAlreadyInStatus)
      else if a.role == Admin then Some(NoProfileRepo)
      else if decision == Approve && s.hasProfile && AnyDoc(s.docs, DocRejected) then
        Some(ApprovalBlockedByRejectedDocument)
      else if decision == Reject && s.hasProfile && AnyDoc(s.docs, DocPending) then
        Some(RejectionNeedsEveryDocumentJudged)
      else None
  }

  function UpdateStatus(s: State, decision: Decision): (State, Reply) {
    var why := DecisionRefusal(s, decision);
    if why.Some? then (s, Refused(why.value))
    else if decision == Approve then
      (WithStatus(s.(docs := if s.hasProfile then PendingApproved(s.docs) else s.docs,
                     wallets := EnsureWallet(s.wallets, s.account.value.role)), Active), Accepted)
    else (WithStatus(s, Rejected), Accepted)
  }

  /** Block when `block` is set, unblock otherwise. */
  function BlockStatus(s: State, block: bool): (State, Reply) {
    if s.account.None? then (s, Refused(AccountNotFound))
    else
      var a := s.account.value;
      if a.role == Collector then (s, Refused(DriverManagedInOdoo))
      else if a.status == (if block then Blocked else Active) then (s, Refused(AccountAlreadyInStatus))
      else if block then
        if a.status != Active then (s, Refused(BlockNeedsApprovedAccount))
        else (WithStatus(s, Blocked), Accepted)
      else if a.status != Blocked then (s, Refused(InvalidStatusTransition))
      else (WithStatus(s, Active), Accepted)
  }
}
