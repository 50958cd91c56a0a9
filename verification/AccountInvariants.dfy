/**
 * What every run of moves keeps: an account waits on its applicant exactly while a document is asked for, a
 * decision keeps the documents it rests on, an account is verified exactly when it has left INACTIVE, and it
 * has a wallet exactly when it has been let in.
 */
module AccountInvariants {
  import opened Sequences
  import opened Onboarding
  import opened AccountRules

  // ---------------------------------------------------------------- moves and runs

  datatype Move =
    | MRegister(role: Role, phoneTaken: bool)
    | MRegisterWithGoogle(role: Role, phoneTaken: bool)
    | MVerifyOtp(codeOk: bool)
    | MLoginWithGoogle(app: App)
    | MSubmitForm(form: Form, formOk: bool)
    | MUpload(id: string, fileType: FileType, file: string)
    | MReplace(id: string, mine: bool, file: string)
    | MReupload(id: string, mine: bool, file: string)
    | MUpdateImage(id: string, mine: bool, file: string)
    | MDeleteImage(id: string, mine: bool)
    | MJudge(id: string, verdict: DocStatus)
    | MRequest(id: string)
    | MReopen
    | MCancel
    | MDecide(decision: Decision)
    | MBlock(block: bool)

  /** An upload gets a fresh id, so one that is taken does nothing. */
  function Apply(s: State, m: Move): (State, Reply) {
    match m
    case MRegister(role, taken) => Register(s, role, taken)
    case MRegisterWithGoogle(role, taken) => RegisterWithGoogle(s, role, taken)
    case MVerifyOtp(ok) => VerifyOtpCode(s, ok)
    case MLoginWithGoogle(app) => LoginWithGoogle(s, app)
    case MSubmitForm(form, ok) => SubmitForm(s, form, ok)
    case MUpload(id, t, file) => if id in s.docs then (s, Unchanged) else UploadImage(s, id, t, file)
    case MReplace(id, mine, file) => ReplaceDocument(s, id, mine, file)
    case MReupload(id, mine, file) => ReuploadRejectedImage(s, id, mine, file)
    case MUpdateImage(id, mine, file) => UpdateImage(s, id, mine, file)
    case MDeleteImage(id, mine) => DeleteImage(s, id, mine)
    case MJudge(id, verdict) => UpdateMediaStatus(s, id, verdict)
    case MRequest(id) => RequestReupload(s, id)
    case MReopen => ReopenApplication(s)
    case MCancel => CancelReuploadRequests(s)
    case MDecide(decision) => UpdateStatus(s, decision)
    case MBlock(block) => BlockStatus(s, block)
  }

  function Run(s: State, moves: seq<Move>): State
    decreases |moves|
  {
    if moves == [] then s else Run(Apply(s, moves[0]).0, moves[1..])
  }

  /** Drivers are decided elsewhere and administrators do not apply: their accounts are not followed. */
  predicate Followed(role: Role) {
    role != Collector && role != Admin
  }

  // ---------------------------------------------------------------- the invariant

  ghost predicate AllDocs(docs: map<string, Doc>, status: DocStatus) {
    forall id :: id in docs ==> docs[id].status == status
  }

  ghost predicate VerifiedInv(a: Account) {
    a.verified <==> a.status != Inactive
  }

  /** A wallet exactly when the account has been let in. */
  ghost predicate WalletInv(a: Account, wallets: nat) {
    wallets == (if WalletEligible(a.role) && (a.status == Active || a.status == Blocked) then 1 else 0)
  }

  /** Waiting on the applicant exactly while something is asked for, and only rejected documents are. */
  ghost predicate RequestInv(a: Account, docs: map<string, Doc>) {
    && (a.status == NeedChanges <==> Outstanding(docs))
    && OnlyRejectedAskedFor(docs)
  }

  ghost predicate OnlyRejectedAskedFor(docs: map<string, Doc>) {
    forall id :: id in docs && docs[id].requested ==> docs[id].status == DocRejected
  }

  /** A decision keeps its evidence. */
  ghost predicate EvidenceInv(a: Account, docs: map<string, Doc>) {
    && (a.status == Active || a.status == Blocked ==> AllDocs(docs, DocApproved))
    && (a.status == Rejected ==> !AnyDoc(docs, DocPending))
    && (a.status == Inactive || a.status == PendingProfile ==> AllDocs(docs, DocPending))
  }

  ghost predicate DocsInv(a: Account, hasProfile: bool, docs: map<string, Doc>) {
    && (forall id :: id in docs ==> hasProfile && docs[id].ownerType == a.role)
    && (forall id, id' :: id in docs && id' in docs && docs[id].fileType == docs[id'].fileType ==> id == id')
  }

  /** An application is open while a step is missing and submitted once all are done. */
  ghost predicate ProgressInv(a: Account, hasProfile: bool, progress: Option<seq<string>>) {
    var steps := OnboardingSteps(a.role);
    var done := if progress.None? then [] else progress.value;
    && |done| <= |steps| && done == steps[..|done|]
    && (hasProfile <==> done != [])
    && (a.status == Inactive ==> done == [])
    && (a.status == PendingProfile && steps != [] ==> |done| < |steps|)
    && (UnderReview(a.status) || a.status == Rejected ==> Reviewable(a.role))
    && (Reviewable(a.role) && a.status != Inactive && a.status != PendingProfile ==> |done| == |steps|)
  }

  /** A followed account in a state that a run can reach. */
  ghost predicate Case(s: State) {
    && s.account.Some? && Followed(s.account.value.role)
    && var a := s.account.value;
       && VerifiedInv(a)
       && WalletInv(a, s.wallets)
       && RequestInv(a, s.docs)
       && EvidenceInv(a, s.docs)
       && DocsInv(a, s.hasProfile, s.docs)
       && ProgressInv(a, s.hasProfile, s.progress)
  }

  function StepsDone(s: State): nat {
    if s.progress.None? then 0 else |s.progress.value|
  }

  ghost predicate Inv(s: State) {
    if s.account.None? then s == NOTHING
    else VerifiedInv(s.account.value) && (Followed(s.account.value.role) ==> Case(s))
  }

  // ---------------------------------------------------------------- every move keeps it

  lemma SignInKeeps(s: State, m: Move)
    requires Inv(s) && (s.account.Some? ==> Case(s))
    requires IsSignIn(m)
    ensures Inv(Apply(s, m).0)
  {}

  /** The account is still there with its role, and it was or is not verified exactly when it was or is INACTIVE. */
  ghost predicate SameAccount(s: State, s': State)
    requires s.account.Some?
  {
    && s'.account.Some? && s'.account.value.role == s.account.value.role
    && (VerifiedInv(s.account.value) ==> VerifiedInv(s'.account.value))
  }

  predicate IsSignIn(m: Move) {
    m.MRegister? || m.MRegisterWithGoogle? || m.MVerifyOtp? || m.MLoginWithGoogle?
  }

  predicate IsReview(m: Move) {
    m.MJudge? || m.MRequest? || m.MReopen? || m.MCancel? || m.MDecide? || m.MBlock?
  }

  lemma SignInKeepsAccount(s: State, m: Move)
    requires s.account.Some? && IsSignIn(m)
    ensures SameAccount(s, Apply(s, m).0)
  {}

  lemma ReviewKeepsAccount(s: State, m: Move)
    requires s.account.Some? && IsReview(m)
    ensures SameAccount(s, Apply(s, m).0)
  {}

  lemma ApplicantKeepsAccount(s: State, m: Move)
    requires s.account.Some? && !IsSignIn(m) && !IsReview(m)
    ensures SameAccount(s, Apply(s, m).0)
  {}

  /** Whoever the account belongs to. */
  lemma AnyAccountKeeps(s: State, m: Move)
    requires s.account.Some?
    ensures SameAccount(s, Apply(s, m).0)
  {
    if IsSignIn(m) {
      SignInKeepsAccount(s, m);
    } else if IsReview(m) {
      ReviewKeepsAccount(s, m);
    } else {
      ApplicantKeepsAccount(s, m);
    }
  }

  lemma OnboardingStepsDistinct(role: Role)
    ensures Distinct(OnboardingSteps(role))
    ensures OnboardingSteps(role) != [] ==> OnboardingSteps(role)[0] == "information"
    ensures forall i :: 0 <= i < |OnboardingSteps(role)| ==> OnboardingSteps(role)[i] != ""
  {}

  /** Completing the current step moves the ledger on by one, and none is left exactly when it was the last. */
  lemma LedgerAdvances(steps: seq<string>, row: Option<seq<string>>, m: nat, step: string)
    requires Distinct(steps) && forall i :: 0 <= i < |steps| ==> steps[i] != ""
    requires m <= |steps| && (if row.None? then [] else row.value) == steps[..m]
    requires CurrentStep(steps, row) == Some(step)
    ensures m < |steps| && AfterStep(steps, row, step) == steps[..m+1]
    ensures CurrentStep(steps, Some(steps[..m+1])).None? <==> m + 1 == |steps|
  {
    FirstStepLikeEmptyRow(steps, step);
    NextAfterPrefix(steps, m);
    StepAdvances(steps, m, step);
    NextAfterPrefix(steps, m + 1);
  }

  lemma StepDoneAdvances(s: State, step: string)
    requires s.account.Some? && s.account.value.status == PendingProfile && Reviewable(s.account.value.role)
    requires ProgressInv(s.account.value, s.progress.Some? && s.progress.value != [], s.progress)
    requires CurrentStep(OnboardingSteps(s.account.value.role), s.progress) == Some(step)
    ensures var s' := StepDone(s, step);
      && s'.(account := s.account, progress := s.progress) == s
      && s'.account.Some? && s'.account.value == s.account.value.(status := s'.account.value.status)
      && (s'.account.value.status == PendingProfile || s'.account.value.status == PendingApproval)
      && ProgressInv(s'.account.value, true, s'.progress)
  {
    var steps := OnboardingSteps(s.account.value.role);
    OnboardingStepsDistinct(s.account.value.role);
    LedgerAdvances(steps, s.progress, if s.progress.None? then 0 else |s.progress.value|, step);
  }

  lemma SubmitFormKeeps(s: State, form: Form, ok: bool)
    requires Case(s)
    ensures Case(SubmitForm(s, form, ok).0)
  {
    if SubmitForm(s, form, ok).1 == Accepted {
      OnboardingStepsDistinct(s.account.value.role);
      StepDoneAdvances(s, StepName(form));
    }
  }

  lemma FreshDocKeeps(s: State, id: string, t: FileType, file: string)
    requires Case(s) && id !in s.docs && UploadImage(s, id, t, file).1 == Accepted
    ensures Case(s.(docs := s.docs[id := Doc(t, s.account.value.role, DocPending, false, file)]))
  {}

  lemma UploadKeeps(s: State, id: string, t: FileType, file: string)
    requires Case(s) && id !in s.docs
    ensures Case(UploadImage(s, id, t, file).0)
  {
    if UploadImage(s, id, t, file).1 == Accepted {
      var a := s.account.value;
      var s' := s.(docs := s.docs[id := Doc(t, a.role, DocPending, false, file)]);
      FreshDocKeeps(s, id, t, file);
      if RequiredCount(a.role) == Some(|s'.docs|) {
        StepDoneAdvances(s', "documents");
      }
    }
  }

  lemma ReplaceKeeps(s: State, id: string, mine: bool, file: string)
    requires Case(s)
    ensures Case(ReplaceDocument(s, id, mine, file).0)
  {}

  lemma OwnerKeeps(s: State, m: Move)
    requires Case(s) && (m.MUpdateImage? || m.MDeleteImage?)
    ensures Case(Apply(s, m).0)
  {}

  /** Changing one document keeps types and owners. */
  lemma OneDocChanged(a: Account, hasProfile: bool, docs: map<string, Doc>, id: string, d: Doc)
    requires DocsInv(a, hasProfile, docs) && id in docs
    requires d.fileType == docs[id].fileType && d.ownerType == docs[id].ownerType
    ensures DocsInv(a, hasProfile, docs[id := d])
  {}

  /** With one owner the release inside the re-upload and the shared release ask the same question. */
  lemma ReleaseRulesAgree(a: Account, hasProfile: bool, docs: map<string, Doc>)
    requires DocsInv(a, hasProfile, docs)
    ensures OutstandingOf(docs, a.role) <==> Outstanding(docs)
  {}

  lemma ReuploadKeeps(s: State, id: string, mine: bool, file: string)
    requires Case(s)
    ensures Case(ReuploadRejectedImage(s, id, mine, file).0)
  {
    if ReuploadRejectedImage(s, id, mine, file).1 == Accepted {
      var a, d := s.account.value, Renewed(s.docs[id], file);
      OneDocChanged(a, s.hasProfile, s.docs, id, d);
      ReleaseRulesAgree(a, s.hasProfile, s.docs[id := d]);
    }
  }

  lemma JudgeKeeps(s: State, id: string, verdict: DocStatus)
    requires Case(s)
    ensures Case(UpdateMediaStatus(s, id, verdict).0)
  {
    if UpdateMediaStatus(s, id, verdict).1 == Accepted {
      var a := s.account.value;
      var d := if verdict == DocApproved then Cleared(s.docs[id]) else s.docs[id].(status := verdict);
      OneDocChanged(a, s.hasProfile, s.docs, id, d);
      JudgedRequests(a, s.docs, id, d);
    }
  }

  /** Judging one document leaves only rejected documents asked for, and asks for nothing new. */
  lemma JudgedRequests(a: Account, docs: map<string, Doc>, id: string, d: Doc)
    requires RequestInv(a, docs) && id in docs && docs[id].status != d.status
    requires (d.status == DocApproved && !d.requested) || (d.status == DocRejected && d.requested == docs[id].requested)
    ensures OnlyRejectedAskedFor(docs[id := d])
    ensures Outstanding(docs[id := d]) ==> Outstanding(docs)
    ensures d.status == DocRejected && Outstanding(docs) ==> Outstanding(docs[id := d])
  {
    if d.status == DocRejected && Outstanding(docs) {
      var x :| x in docs && docs[x].requested;
      assert docs[id := d][x].requested;
    }
  }

  lemma RequestKeeps(s: State, id: string)
    requires Case(s)
    ensures Case(RequestReupload(s, id).0)
  {
    if RequestReupload(s, id).1 == Accepted {
      var d := s.docs[id].(requested := true);
      OneDocChanged(s.account.value, s.hasProfile, s.docs, id, d);
      assert s.docs[id := d][id].requested;
    }
  }

  lemma ReopenKeeps(s: State)
    requires Case(s)
    ensures Case(ReopenApplication(s).0)
  {}

  lemma CancelKeeps(s: State)
    requires Case(s)
    ensures Case(CancelReuploadRequests(s).0)
  {}

  lemma DecideKeeps(s: State, decision: Decision)
    requires Case(s)
    ensures Case(UpdateStatus(s, decision).0)
  {}

  lemma BlockKeeps(s: State, block: bool)
    requires Case(s)
    ensures Case(BlockStatus(s, block).0)
  {}

  lemma ReviewKeeps(s: State, m: Move)
    requires Case(s) && IsReview(m)
    ensures Case(Apply(s, m).0)
  {
    match m
    case MJudge(id, verdict) => JudgeKeeps(s, id, verdict);
    case MRequest(id) => RequestKeeps(s, id);
    case MReopen => ReopenKeeps(s);
    case MCancel => CancelKeeps(s);
    case MDecide(decision) => DecideKeeps(s, decision);
    case MBlock(block) => BlockKeeps(s, block);
  }

  lemma ApplicantKeeps(s: State, m: Move)
    requires Case(s) && !IsSignIn(m) && !IsReview(m)
    ensures Case(Apply(s, m).0)
  {
    match m
    case MSubmitForm(form, ok) => SubmitFormKeeps(s, form, ok);
    case MUpload(id, t, file) => if id !in s.docs { UploadKeeps(s, id, t, file); }
    case MReplace(id, mine, file) => ReplaceKeeps(s, id, mine, file);
    case MReupload(id, mine, file) => ReuploadKeeps(s, id, mine, file);
    case MUpdateImage(_, _, _) => OwnerKeeps(s, m);
    case MDeleteImage(_, _) => OwnerKeeps(s, m);
  }

  lemma MoveKeepsCase(s: State, m: Move)
    requires Case(s)
    ensures Case(Apply(s, m).0)
  {
    if IsSignIn(m) {
      SignInKeeps(s, m);
      SignInKeepsAccount(s, m);
    } else if IsReview(m) {
      ReviewKeeps(s, m);
    } else {
      ApplicantKeeps(s, m);
    }
  }

  lemma NothingButSignUp(m: Move)
    ensures Inv(Apply(NOTHING, m).0)
  {
    if IsSignIn(m) { SignInKeeps(NOTHING, m); }
  }

  lemma MoveKeepsInv(s: State, m: Move)
    requires Inv(s)
    ensures Inv(Apply(s, m).0)
  {
    if s.account.None? {
      NothingButSignUp(m);
    } else {
      AnyAccountKeeps(s, m);
      if Followed(s.account.value.role) { MoveKeepsCase(s, m); }
    }
  }

  lemma {:induction false} RunKeepsInv(s: State, moves: seq<Move>)
    requires Inv(s)
    ensures Inv(Run(s, moves))
    decreases |moves|
  {
    if moves != [] {
      MoveKeepsInv(s, moves[0]);
      RunKeepsInv(Apply(s, moves[0]).0, moves[1..]);
    }
  }

  /** Every state reached from an unused email address satisfies the invariant. */
  lemma EveryReachableState(moves: seq<Move>)
    ensures Inv(Run(NOTHING, moves))
  {
    RunKeepsInv(NOTHING, moves);
  }

  /** A run has left an account that is followed. */
  ghost predicate Reaches(moves: seq<Move>) {
    var a := Run(NOTHING, moves).account;
    a.Some? && Followed(a.value.role)
  }

  /**
   * On every run an account waits on its applicant exactly while a document is asked for, and only rejected ones are.
   */
  lemma WaitsExactlyWhileAsked(moves: seq<Move>)
    requires Reaches(moves)
    ensures var s := Run(NOTHING, moves);
      && (s.account.value.status == NeedChanges <==> exists id :: id in s.docs && s.docs[id].requested)
      && forall id :: id in s.docs && s.docs[id].requested ==> s.docs[id].status == DocRejected
  {
    EveryReachableState(moves);
  }

  /**
   * On every run a verified account is one that has left INACTIVE, and being let in means having exactly one wallet.
   */
  lemma VerifiedAndOneWallet(moves: seq<Move>)
    requires Reaches(moves)
    ensures var s := Run(NOTHING, moves);
      var a := s.account.value;
      && (a.verified <==> a.status != Inactive)
      && s.wallets <= 1
      && (s.wallets == 1 <==> WalletEligible(a.role) && (a.status == Active || a.status == Blocked))
  {
    EveryReachableState(moves);
  }

  // ---------------------------------------------------------------- the life cycle

  /** Which move takes an account from one status to another. */
  predicate Transition(role: Role, from: AccountStatus, m: Move, to: AccountStatus) {
    match (from, to)
    case (Inactive, Active) => role == Citizen && (m.MVerifyOtp? || m.MLoginWithGoogle?)
    case (Inactive, PendingProfile) => Reviewable(role) && (m.MVerifyOtp? || m.MLoginWithGoogle?)
    case (PendingProfile, PendingApproval) => Reviewable(role) && (m.MSubmitForm? || m.MUpload?)
    case (PendingApproval, NeedChanges) => m.MRequest?
    case (NeedChanges, PendingApproval) => m.MReupload? || m == MCancel || (m.MJudge? && m.verdict == DocApproved)
    case (PendingApproval, Active) => m == MDecide(Approve)
    case (PendingApproval, Rejected) => m == MDecide(Reject)
    case (Rejected, Active) => m == MDecide(Approve)
    case (Rejected, PendingApproval) => m == MReopen
    case (Active, Blocked) => m == MBlock(true)
    case (Blocked, Active) => m == MBlock(false)
    case _ => false
  }

  /** The role is kept, and the status is kept or changes along an edge. */
  ghost predicate AlongAnEdge(s: State, m: Move, s': State)
    requires s.account.Some?
  {
    && s'.account.Some?
    && var a, a' := s.account.value, s'.account.value;
       a'.role == a.role && (a'.status == a.status || Transition(a.role, a.status, m, a'.status))
  }

  lemma SignInTransition(s: State, m: Move)
    requires Case(s) && IsSignIn(m)
    ensures AlongAnEdge(s, m, Apply(s, m).0)
  {}

  lemma StepTransition(s: State, m: Move)
    requires Case(s) && (m.MSubmitForm? || m.MUpload?)
    ensures AlongAnEdge(s, m, Apply(s, m).0)
  {}

  lemma DocumentTransition(s: State, m: Move)
    requires Case(s) && (m.MReplace? || m.MReupload? || m.MUpdateImage? || m.MDeleteImage?)
    ensures AlongAnEdge(s, m, Apply(s, m).0)
  {}

  lemma JudgeTransition(s: State, m: Move)
    requires Case(s) && (m.MJudge? || m.MRequest?)
    ensures AlongAnEdge(s, m, Apply(s, m).0)
  {}

  lemma RequestsTransition(s: State, m: Move)
    requires Case(s) && (m.MReopen? || m.MCancel?)
    ensures AlongAnEdge(s, m, Apply(s, m).0)
  {}

  lemma BlockTransition(s: State, m: Move)
    requires Case(s) && m.MBlock?
    ensures AlongAnEdge(s, m, Apply(s, m).0)
  {}

  lemma DecisionTransition(s: State, m: Move)
    requires Case(s) && m.MDecide?
    ensures AlongAnEdge(s, m, Apply(s, m).0)
  {}

  lemma MoveGoesAlongAnEdge(s: State, m: Move)
    requires Case(s)
    ensures AlongAnEdge(s, m, Apply(s, m).0)
  {
    if IsSignIn(m) {
      SignInTransition(s, m);
    } else if m.MSubmitForm? || m.MUpload? {
      StepTransition(s, m);
    } else if m.MReplace? || m.MReupload? || m.MUpdateImage? || m.MDeleteImage? {
      DocumentTransition(s, m);
    } else if m.MJudge? || m.MRequest? {
      JudgeTransition(s, m);
    } else if m.MReopen? || m.MCancel? {
      RequestsTransition(s, m);
    } else if m.MBlock? {
      BlockTransition(s, m);
    } else {
      DecisionTransition(s, m);
    }
  }

  /** A followed account goes along an edge. */
  ghost predicate Follows(s: State, m: Move, s': State) {
    Case(s) ==> AlongAnEdge(s, m, s')
  }

  /** What each move owes: the invariant is kept, and a followed account goes along an edge. */
  lemma MoveIsSound(s: State, m: Move)
    requires Inv(s)
    ensures Inv(Apply(s, m).0) && Follows(s, m, Apply(s, m).0)
  {
    MoveKeepsInv(s, m);
    if Case(s) { MoveGoesAlongAnEdge(s, m); }
  }

  /** On every run status changes only along these edges, and only by these moves; the role never changes. */
  lemma OnlyTheseTransitions(moves: seq<Move>, m: Move)
    requires Reaches(moves)
    ensures AlongAnEdge(Run(NOTHING, moves), m, Apply(Run(NOTHING, moves), m).0)
  {
    EveryReachableState(moves);
    MoveGoesAlongAnEdge(Run(NOTHING, moves), m);
  }

  // ---------------------------------------------------------------- two ways of confirming the address

  /** The two sign-in rules leave the account in the same status, verified, with the same wallets. */
  ghost predicate SettlesAlike(s: State, app: App) {
    var google, code := LoginWithGoogle(s, app).0, VerifyOtpCode(s, true).0;
    && google.account.Some? && code.account.Some? && google.wallets == code.wallets
    && google.account.value.status == code.account.value.status
    && google.account.value.verified && code.account.value.verified
  }

  /**
   * On every run an account that still waits for its code is settled alike by Google and by the code, unless it is an
   * administrator's.
   */
  lemma SettledAlikeIff(moves: seq<Move>, app: App)
    requires var a := Run(NOTHING, moves).account;
      a.Some? && a.value.status == Inactive && AllowedIn(app, a.value.role)
    ensures SettlesAlike(Run(NOTHING, moves), app) <==> Run(NOTHING, moves).account.value.role != Admin
  {
    EveryReachableState(moves);
  }

  /** The routes sign up every role but the administrator's. */
  predicate ThroughARoute(m: Move) {
    match m
    case MRegister(role, _) => role != Admin
    case MRegisterWithGoogle(role, _) => role != Admin
    case _ => true
  }

  ghost predicate ThroughRoutes(moves: seq<Move>) {
    forall i :: 0 <= i < |moves| ==> ThroughARoute(moves[i])
  }

  ghost predicate NoAdministrator(s: State) {
    s.account.Some? ==> s.account.value.role != Admin
  }

  lemma {:induction false} RoutesMakeNoAdministrator(s: State, moves: seq<Move>)
    requires Inv(s) && NoAdministrator(s) && ThroughRoutes(moves)
    ensures NoAdministrator(Run(s, moves))
    decreases |moves|
  {
    if moves != [] {
      var m := moves[0];
      MoveKeepsInv(s, m);
      if s.account.Some? { AnyAccountKeeps(s, m); }
      assert ThroughARoute(m);
      RoutesMakeNoAdministrator(Apply(s, m).0, moves[1..]);
    }
  }

  /** So on every run through the routes the two rules agree. */
  lemma SettledAlike(moves: seq<Move>, app: App)
    requires ThroughRoutes(moves)
    requires var a := Run(NOTHING, moves).account;
      a.Some? && a.value.status == Inactive && AllowedIn(app, a.value.role)
    ensures SettlesAlike(Run(NOTHING, moves), app)
  {
    RoutesMakeNoAdministrator(NOTHING, moves);
    SettledAlikeIff(moves, app);
  }

  // ---------------------------------------------------------------- what the stored rows can be

  /** Some run from an unused email address ends here. */
  ghost predicate Reachable(s: State) {
    exists moves :: Run(NOTHING, moves) == s
  }

  lemma {:induction false} RunSnoc(s: State, moves: seq<Move>, m: Move)
    ensures Run(s, moves + [m]) == Apply(Run(s, moves), m).0
    decreases |moves|
  {
    if moves == [] {
      assert [m][1..] == [];
    } else {
      RunSnoc(Apply(s, moves[0]).0, moves[1..], m);
      assert (moves + [m])[1..] == moves[1..] + [m];
    }
  }

  /** A move leads from a reachable state to a reachable one, along an edge of the life cycle. */
  lemma StaysReachable(s: State, m: Move)
    requires Reachable(s)
    ensures Reachable(Apply(s, m).0) && Follows(s, m, Apply(s, m).0)
  {
    var moves :| Run(NOTHING, moves) == s;
    RunSnoc(NOTHING, moves, m);
    EveryReachableState(moves);
    MoveIsSound(s, m);
  }

  lemma ReachableIsSound(s: State)
    requires Reachable(s)
    ensures Inv(s)
  {
    var moves :| Run(NOTHING, moves) == s;
    EveryReachableState(moves);
  }
}
