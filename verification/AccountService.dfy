/**
 * The services' methods on the stored rows of one account. Each carries out one move, leaves the rows in a state that
 * a run can reach, so that the invariants proved there hold of them, and changes the status only along an edge.
 */
module AccountService {
  import opened Sequences
  import opened Onboarding
  import opened AccountRules
  import opened AccountInvariants

  class CaseFile {
    var account: Option<Account>
    var wallets: nat
    var hasProfile: bool
    var progress: Option<seq<string>>
    var docs: map<string, Doc>

    function View(): State
      reads this
    {
      State(account, wallets, hasProfile, progress, docs)
    }

    /** The rows are what some run of moves leaves, so whatever holds on every run holds of them. */
    ghost predicate Valid()
      reads this
    {
      Reachable(View())
    }

    lemma RowsKeepTheInvariant()
      requires Valid()
      ensures Inv(View())
    {
      ReachableIsSound(View());
    }

    constructor ()
      ensures Valid() && View() == NOTHING
    {
      account, wallets, hasProfile, progress, docs := None, 0, false, None, map[];
      new;
      assert Run(NOTHING, []) == View();
    }

    // -------------------------------------------------------------- row updates, inside a move

    method SetStatus(status: AccountStatus)
      requires account.Some?
      modifies this`account
      ensures View() == WithStatus(old(View()), status)
    {
      account := Some(account.value.(status := status));
    }

    /** Open a wallet for an eligible role unless one exists. */
    method EnsureForAccount(role: Role)
      modifies this`wallets
      ensures wallets == EnsureWallet(old(wallets), role)
    {
      if !WalletEligible(role) { return; }
      if wallets > 0 { return; }
      wallets := wallets + 1;
    }

    /** The release shared by approving a document and cancelling the requests. */
    method SettleReviewState() returns (released: bool)
      modifies this`account
      ensures View() == Settled(old(View()))
      ensures released <==> View() != old(View())
    {
      if Outstanding(docs) { return false; }
      if account.None? || account.value.status != NeedChanges { return false; }
      SetStatus(PendingApproval);
      return true;
    }

    // -------------------------------------------------------------- signing up and in

    method Register(role: Role, phoneTaken: bool) returns (r: Reply)
      requires Valid()
      modifies this`account
      ensures Valid()
      ensures (View(), r) == AccountRules.Register(old(View()), role, phoneTaken)
      ensures Follows(old(View()), MRegister(role, phoneTaken), View())
    {
      StaysReachable(View(), MRegister(role, phoneTaken));
      if account.Some? && IsGoogleOnly(account.value) { return Refused(EmailRegisteredWithGoogle); }
      if account.Some? && !account.value.verified { return Unchanged; }
      if account.Some? && account.value.verified { return Refused(EmailAlreadyExists); }
      if phoneTaken { return Refused(PhoneAlreadyExists); }
      account := Some(Account(role, Inactive, false, true, false));
      return Accepted;
    }

    method RegisterWithGoogle(role: Role, phoneTaken: bool) returns (r: Reply)
      requires Valid()
      modifies this`account, this`wallets
      ensures Valid()
      ensures (View(), r) == AccountRules.RegisterWithGoogle(old(View()), role, phoneTaken)
      ensures Follows(old(View()), MRegisterWithGoogle(role, phoneTaken), View())
    {
      StaysReachable(View(), MRegisterWithGoogle(role, phoneTaken));
      if account.Some? { return Refused(EmailAlreadyExists); }
      if phoneTaken { return Refused(PhoneAlreadyExists); }
      account := Some(Account(role, FirstStatus(role), true, false, true));
      if account.value.status == Active { EnsureForAccount(role); }
      return Accepted;
    }

    method VerifyOtpCode(codeOk: bool) returns (r: Reply)
      requires Valid()
      modifies this`account, this`wallets
      ensures Valid()
      ensures (View(), r) == AccountRules.VerifyOtpCode(old(View()), codeOk)
      ensures Follows(old(View()), MVerifyOtp(codeOk), View())
    {
      StaysReachable(View(), MVerifyOtp(codeOk));
      if account.None? { return Refused(AccountNotFound); }
      if account.value.status != Inactive { return Refused(TokenRefused); }
      if !codeOk { return Refused(InvalidOtp); }
      account := Some(account.value.(verified := true,
                                            status := if account.value.role == Citizen then Active
                                                else PendingProfile));
      if account.value.status == Active { EnsureForAccount(account.value.role); }
      return Accepted;
    }

    method LoginWithGoogle(app: App) returns (r: Reply)
      requires Valid()
      modifies this`account, this`wallets
      ensures Valid()
      ensures (View(), r) == AccountRules.LoginWithGoogle(old(View()), app)
      ensures Follows(old(View()), MLoginWithGoogle(app), View())
    {
      StaysReachable(View(), MLoginWithGoogle(app));
      if account.None? { return Refused(AccountNotFound); }
      if !AllowedIn(app, account.value.role) { return Refused(AppNotAuthorized); }
      if !account.value.googleLinked {
        account := Some(account.value.(googleLinked := true));
      }
      if !account.value.verified {
        account := Some(account.value.(verified := true));
        if account.value.status == Inactive { SetStatus(FirstStatus(account.value.role)); }
      }
      if account.value.status == Active { EnsureForAccount(account.value.role); }
      return Accepted;
    }

    // -------------------------------------------------------------- the application

    /** Push the step if it is the next one, then submit the application when none is left. */
    method CompleteStep(step: string)
      requires account.Some?
      modifies this`account, this`progress
      ensures View() == StepDone(old(View()), step)
    {
      var steps := OnboardingSteps(account.value.role);
      if progress.None? {
        var completed: seq<string> := [];
        if steps != [] && step == steps[0] { completed := completed + [step]; assert completed == [step]; }
        progress := Some(completed);
      } else {
        var next := NextStep(steps, progress.value);
        if next == Some(step) { progress := Some(progress.value + [step]); }
      }
      if CurrentStep(steps, progress).None? { SetStatus(PendingApproval); }
    }

    method SubmitForm(form: Form, formOk: bool) returns (r: Reply)
      requires Valid()
      modifies this`account, this`hasProfile, this`progress
      ensures Valid()
      ensures (View(), r) == AccountRules.SubmitForm(old(View()), form, formOk)
      ensures Follows(old(View()), MSubmitForm(form, formOk), View())
    {
      StaysReachable(View(), MSubmitForm(form, formOk));
      if account.None? { return Refused(AccountNotFound); }
      if account.value.status != PendingProfile { return Refused(RouteForbidden); }
      if form != Information && !hasProfile { return Refused(ProfileNotFound); }
      var step := CurrentStep(OnboardingSteps(account.value.role), progress);
      if step != Some(StepName(form)) { return Refused(StepOutOfOrder); }
      if form == Information && hasProfile { return Refused(AlreadyInformed); }
      if !formOk { return Refused(InvalidForm); }
      if form == Information { hasProfile := true; }
      CompleteStep(StepName(form));
      return Accepted;
    }

    method UploadImage(id: string, t: FileType, file: string) returns (r: Reply)
      requires id !in docs
      requires Valid()
      modifies this`account, this`progress, this`docs
      ensures Valid()
      ensures (View(), r) == AccountRules.UploadImage(old(View()), id, t, file)
      ensures Follows(old(View()), MUpload(id, t, file), View())
    {
      StaysReachable(View(), MUpload(id, t, file));
      if account.None? { return Refused(AccountNotFound); }
      var role := account.value.role;
      if !MayUpload(account.value) { return Refused(RouteForbidden); }
      if !hasProfile { return Refused(ProfileNotFound); }
      if role != ExternalPartner && CurrentStep(OnboardingSteps(role), progress) != Some("documents") {
        return Refused(StepOutOfOrder);
      }
      if HasType(docs, t) { return Refused(DuplicateImageType); }
      docs := docs[id := Doc(t, role, DocPending, false, file)];
      if RequiredCount(role) == Some(|docs|) { CompleteStep("documents"); }
      return Accepted;
    }

    method ReplaceDocument(id: string, mine: bool, file: string) returns (r: Reply)
      requires Valid()
      modifies this`docs
      ensures Valid()
      ensures (View(), r) == AccountRules.ReplaceDocument(old(View()), id, mine, file)
      ensures Follows(old(View()), MReplace(id, mine, file), View())
    {
      StaysReachable(View(), MReplace(id, mine, file));
      if account.None? { return Refused(AccountNotFound); }
      if account.value.status != PendingProfile
          && account.value.status != PendingApproval { return Refused(RouteForbidden); }
      if !hasProfile { return Refused(ProfileNotFound); }
      if id !in docs { return Refused(MediaNotFound); }
      if !mine || docs[id].ownerType != account.value.role { return Refused(NotYourImage); }
      if docs[id].status == DocRejected { return Refused(DocumentRejected); }
      docs := docs[id := docs[id].(status := DocPending, file := file)];
      return Accepted;
    }

    method ReuploadRejectedImage(id: string, mine: bool, file: string) returns (r: Reply)
      requires Valid()
      modifies this`account, this`docs
      ensures Valid()
      ensures (View(), r) == AccountRules.ReuploadRejectedImage(old(View()), id, mine, file)
      ensures Follows(old(View()), MReupload(id, mine, file), View())
    {
      StaysReachable(View(), MReupload(id, mine, file));
      if id !in docs { return Refused(MediaNotFound); }
      if docs[id].status != DocRejected { return Refused(OnlyRejectedReupload); }
      if !docs[id].requested { return Refused(ReuploadNotRequested); }
      if !mine || !hasProfile { return Refused(NotYourImage); }
      if account.None? || account.value.status != NeedChanges { return Refused(AccountNotAwaitingChanges); }
      docs := docs[id := Renewed(docs[id], file)];
      if !OutstandingOf(docs, docs[id].ownerType) { SetStatus(PendingApproval); }
      return Accepted;
    }

    // -------------------------------------------------------------- an account that has been let in

    method UpdateImage(id: string, mine: bool, file: string) returns (r: Reply)
      requires Valid()
      modifies this`docs
      ensures Valid()
      ensures (View(), r) == AccountRules.UpdateImage(old(View()), id, mine, file)
      ensures Follows(old(View()), MUpdateImage(id, mine, file), View())
    {
      StaysReachable(View(), MUpdateImage(id, mine, file));
      if account.None? { return Refused(AccountNotFound); }
      if account.value.status != Active { return Refused(RouteForbidden); }
      if id !in docs { return Refused(MediaNotFound); }
      if !mine || !hasProfile { return Refused(NotYourImage); }
      docs := docs[id := docs[id].(file := file)];
      return Accepted;
    }

    method DeleteImage(id: string, mine: bool) returns (r: Reply)
      requires Valid()
      modifies this`docs
      ensures Valid()
      ensures (View(), r) == AccountRules.DeleteImage(old(View()), id, mine)
      ensures Follows(old(View()), MDeleteImage(id, mine), View())
    {
      StaysReachable(View(), MDeleteImage(id, mine));
      if account.None? { return Refused(AccountNotFound); }
      if account.value.status != Active { return Refused(RouteForbidden); }
      if id !in docs { return Refused(MediaNotFound); }
      if !mine || !hasProfile { return Refused(NotYourImage); }
      docs := docs - {id};
      return Accepted;
    }

    // -------------------------------------------------------------- the reviewer

    method UpdateMediaStatus(id: string, verdict: DocStatus) returns (r: Reply)
      requires Valid()
      modifies this`account, this`docs
      ensures Valid()
      ensures (View(), r) == AccountRules.UpdateMediaStatus(old(View()), id, verdict)
      ensures Follows(old(View()), MJudge(id, verdict), View())
    {
      StaysReachable(View(), MJudge(id, verdict));
      var why := VerdictRefusal(View(), id, verdict);
      if why.Some? { return Refused(why.value); }
      if docs[id].status == verdict { return Unchanged; }
      docs := docs[id := if verdict == DocApproved then Cleared(docs[id]) else docs[id].(status := verdict)];
      if verdict == DocApproved { var _ := SettleReviewState(); }
      return Accepted;
    }

    method RequestReupload(id: string) returns (r: Reply)
      requires Valid()
      modifies this`account, this`docs
      ensures Valid()
      ensures (View(), r) == AccountRules.RequestReupload(old(View()), id)
      ensures Follows(old(View()), MRequest(id), View())
    {
      StaysReachable(View(), MRequest(id));
      if id !in docs { return Refused(MediaNotFound); }
      if !Resolves(View()) { return Refused(ProfileNotFound); }
      if account.value.role == Collector { return Refused(DriverManagedInOdoo); }
      if !UnderReview(account.value.status) { return Refused(ReuploadNotReviewable); }
      if docs[id].status != DocRejected { return Refused(ReuploadNeedsRejectedDocument); }
      if docs[id].requested { return Refused(ReuploadAlreadyRequested); }
      docs := docs[id := docs[id].(requested := true)];
      SetStatus(NeedChanges);
      return Accepted;
    }

    method ReopenApplication() returns (r: Reply)
      requires Valid()
      modifies this`account
      ensures Valid()
      ensures (View(), r) == AccountRules.ReopenApplication(old(View()))
      ensures Follows(old(View()), MReopen, View())
    {
      StaysReachable(View(), MReopen);
      if account.None? { return Refused(AccountNotFound); }
      if account.value.role == Collector { return Refused(DriverManagedInOdoo); }
      if account.value.status != Rejected { return Refused(OnlyRejectedCanReopen); }
      SetStatus(PendingApproval);
      return Accepted;
    }

    method CancelReuploadRequests() returns (r: Reply)
      requires Valid()
      modifies this`account, this`docs
      ensures Valid()
      ensures (View(), r) == AccountRules.CancelReuploadRequests(old(View()))
      ensures Follows(old(View()), MCancel, View())
    {
      StaysReachable(View(), MCancel);
      if account.None? { return Refused(AccountNotFound); }
      if account.value.role == Collector { return Refused(DriverManagedInOdoo); }
      if account.value.role == Admin { return Refused(NoProfileRepo); }
      if !hasProfile { return Refused(ProfileNotFound); }
      if !Outstanding(docs) { return Refused(NothingRequested); }
      docs := Withdrawn(docs);
      var _ := SettleReviewState();
      return Accepted;
    }

    method UpdateStatus(decision: Decision) returns (r: Reply)
      requires Valid()
      modifies this`account, this`wallets, this`docs
      ensures Valid()
      ensures (View(), r) == AccountRules.UpdateStatus(old(View()), decision)
      ensures Follows(old(View()), MDecide(decision), View())
    {
      StaysReachable(View(), MDecide(decision));
      var why := DecisionRefusal(View(), decision);
      if why.Some? { return Refused(why.value); }
      if decision == Approve {
        if hasProfile { docs := PendingApproved(docs); }
        SetStatus(Active);
        EnsureForAccount(account.value.role);
      } else {
        SetStatus(Rejected);
      }
      return Accepted;
    }

    method BlockStatus(block: bool) returns (r: Reply)
      requires Valid()
      modifies this`account
      ensures Valid()
      ensures (View(), r) == AccountRules.BlockStatus(old(View()), block)
      ensures Follows(old(View()), MBlock(block), View())
    {
      StaysReachable(View(), MBlock(block));
      if account.None? { return Refused(AccountNotFound); }
      if account.value.role == Collector { return Refused(DriverManagedInOdoo); }
      var current := account.value.status;
      if current == (if block then Blocked else Active) { return Refused(AccountAlreadyInStatus); }
      if block {
        if current != Active { return Refused(BlockNeedsApprovedAccount); }
        SetStatus(Blocked);
      } else {
        if current != Blocked { return Refused(InvalidStatusTransition); }
        SetStatus(Active);
      }
      return Accepted;
    }
  }
}
