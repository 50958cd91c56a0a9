/**
 * What every move does, said on the stored fields alone: exactly when it is accepted, that anything else changes
 * nothing, and what it leaves of the status, of the account, of the progress and of each single document.
 */
module MoveEffects {
  import opened Sequences
  import opened Onboarding
  import opened AccountRules
  import opened AccountInvariants

  // ---------------------------------------------------------------- when a move is accepted

  /** Each role signs in through one app. */
  function AppOf(role: Role): App {
    match role
    case Citizen => UserApp
    case Institutions => UserApp
    case Collector => CollectorApp
    case Factory => FactoryApp
    case ExternalPartner => FactoryApp
    case Admin => AdminApp
  }

  lemma OneAppEach(app: App, role: Role)
    ensures AllowedIn(app, role) <==> app == AppOf(role)
  {}

  /** How many steps come before a form; a free facility has no documents step. */
  function Before(role: Role, form: Form): nat {
    match form
    case Information => 0
    case Location => 1
    case Materials => if role == ExternalPartner then 2 else 3
  }

  function AllSteps(role: Role): nat {
    Before(role, Materials) + 1
  }

  ghost predicate Admits(s: State, m: Move)
    requires Case(s)
  {
    var a := s.account.value;
    match m
    case MRegister(_, _) => false
    case MRegisterWithGoogle(_, _) => false
    case MVerifyOtp(codeOk) => codeOk && a.status == Inactive
    case MLoginWithGoogle(app) => app == AppOf(a.role)
    case MSubmitForm(form, formOk) =>
      formOk && a.status == PendingProfile && Reviewable(a.role) && StepsDone(s) == Before(a.role, form)
    case MUpload(id, t, _) =>
      && id !in s.docs && s.hasProfile && (forall x :: x in s.docs ==> s.docs[x].fileType != t)
      && if a.role == ExternalPartner then a.status == PendingProfile || a.status == PendingApproval
         else a.status == PendingProfile && StepsDone(s) == 2
    case MReplace(id, mine, _) =>
      && mine && id in s.docs && s.docs[id].status != DocRejected
      && (a.status == PendingProfile || a.status == PendingApproval)
    case MReupload(id, mine, _) => mine && id in s.docs && s.docs[id].requested && a.status == NeedChanges
    case MUpdateImage(id, mine, _) => mine && id in s.docs && a.status == Active
    case MDeleteImage(id, mine) => mine && id in s.docs && a.status == Active
    case MJudge(id, verdict) =>
      id in s.docs && verdict != DocPending && s.docs[id].status != verdict && UnderReview(a.status)
    case MRequest(id) => id in s.docs && s.docs[id].status == DocRejected && !s.docs[id].requested
        && UnderReview(a.status)
    case MReopen => a.status == Rejected
    case MCancel => a.status == NeedChanges
    case MDecide(Approve) => (a.status == PendingApproval || a.status == Rejected) && !AnyDoc(s.docs, DocRejected)
    case MDecide(Reject) => a.status == PendingApproval && !AnyDoc(s.docs, DocPending)
    case MBlock(block) => a.status == if block then Active else Blocked
  }

  /** In every state, a move that is not accepted changes nothing. */
  lemma RefusedChangesNothing(s: State, m: Move)
    ensures Apply(s, m).1 != Accepted ==> Apply(s, m).0 == s
  {}

  lemma SignInAcceptedIff(s: State, m: Move)
    requires Case(s) && IsSignIn(m)
    ensures Apply(s, m).1 == Accepted <==> Admits(s, m)
  {
    if m.MLoginWithGoogle? { OneAppEach(m.app, s.account.value.role); }
  }

  lemma StepNames(role: Role)
    requires Reviewable(role)
    ensures var steps := OnboardingSteps(role);
      && |steps| == AllSteps(role)
      && forall form :: Before(role, form) < |steps| && steps[Before(role, form)] == StepName(form)
    ensures role != ExternalPartner ==> OnboardingSteps(role)[2] == "documents"
  {
    forall form ensures Before(role, form) < |OnboardingSteps(role)|
      && OnboardingSteps(role)[Before(role, form)] == StepName(form)
    {
      match form
      case Information =>
      case Location =>
      case Materials =>
    }
  }

  /** The current step is the one after those that are done. */
  lemma CurrentIsNext(s: State)
    requires Case(s) && Reviewable(s.account.value.role)
    ensures var steps := OnboardingSteps(s.account.value.role);
      StepsDone(s) <= |steps| && CurrentStep(steps, s.progress)
        == if StepsDone(s) < |steps| then Some(steps[StepsDone(s)]) else None
  {
    OnboardingStepsDistinct(s.account.value.role);
    NextAfterPrefix(OnboardingSteps(s.account.value.role), StepsDone(s));
  }

  lemma FormAcceptedIff(s: State, form: Form, formOk: bool)
    requires Case(s)
    ensures SubmitForm(s, form, formOk).1 == Accepted <==> Admits(s, MSubmitForm(form, formOk))
  {
    var role := s.account.value.role;
    if Reviewable(role) {
      StepNames(role);
      CurrentIsNext(s);
      OnboardingStepsDistinct(role);
      SameStep(role, StepsDone(s), Before(role, form));
    }
  }

  lemma SameStep(role: Role, i: nat, j: nat)
    requires Reviewable(role) && j < |OnboardingSteps(role)|
    ensures i < |OnboardingSteps(role)| ==> (OnboardingSteps(role)[i] == OnboardingSteps(role)[j] <==> i == j)
  {
    OnboardingStepsDistinct(role);
  }

  lemma UploadAcceptedIff(s: State, id: string, t: FileType, file: string)
    requires Case(s)
    ensures Apply(s, MUpload(id, t, file)).1 == Accepted <==> Admits(s, MUpload(id, t, file))
  {
    var role := s.account.value.role;
    if Reviewable(role) {
      StepNames(role);
      CurrentIsNext(s);
      if role != ExternalPartner { SameStep(role, StepsDone(s), 2); }
    }
  }

  lemma OwnerAcceptedIff(s: State, m: Move)
    requires Case(s) && (m.MReplace? || m.MReupload? || m.MUpdateImage? || m.MDeleteImage?)
    ensures Apply(s, m).1 == Accepted <==> Admits(s, m)
  {}

  lemma JudgeAcceptedIff(s: State, m: Move)
    requires Case(s) && (m.MJudge? || m.MRequest?)
    ensures Apply(s, m).1 == Accepted <==> Admits(s, m)
  {}

  lemma DecisionAcceptedIff(s: State, m: Move)
    requires Case(s) && (m.MReopen? || m.MDecide? || m.MBlock?)
    ensures Apply(s, m).1 == Accepted <==> Admits(s, m)
  {}

  lemma CancelAcceptedIff(s: State)
    requires Case(s)
    ensures Apply(s, MCancel).1 == Accepted <==> Admits(s, MCancel)
  {}

  /** A move is accepted exactly when the stored fields admit it. */
  lemma AcceptedIff(s: State, m: Move)
    requires Case(s)
    ensures Apply(s, m).1 == Accepted <==> Admits(s, m)
  {
    if IsSignIn(m) {
      SignInAcceptedIff(s, m);
    } else if m.MSubmitForm? {
      FormAcceptedIff(s, m.form, m.formOk);
    } else if m.MUpload? {
      UploadAcceptedIff(s, m.id, m.fileType, m.file);
    } else if m.MJudge? || m.MRequest? {
      JudgeAcceptedIff(s, m);
    } else if m.MCancel? {
      CancelAcceptedIff(s);
    } else if m.MReopen? || m.MDecide? || m.MBlock? {
      DecisionAcceptedIff(s, m);
    } else {
      OwnerAcceptedIff(s, m);
    }
  }

  // ---------------------------------------------------------------- what becomes of a document

  /** What an accepted move makes of the document `d` stored under `id`, or of its absence. */
  function Edited(role: Role, d: Option<Doc>, m: Move, id: string): Option<Doc> {
    match m
    case MUpload(x, t, file) => if x == id then Some(Doc(t, role, DocPending, false, file)) else d
    case MReplace(x, _, file) => if x == id && d.Some? then Some(d.value.(status := DocPending, file := file)) else d
    case MReupload(x, _, file) =>
      if x == id && d.Some? then Some(d.value.(status := DocPending, requested := false, file := file)) else d
    case MUpdateImage(x, _, file) => if x == id && d.Some? then Some(d.value.(file := file)) else d
    case MDeleteImage(x, _) => if x == id then None else d
    case MJudge(x, verdict) =>
      if x == id && d.Some? then
        Some(d.value.(status := verdict, requested := d.value.requested && verdict == DocRejected))
      else d
    case MRequest(x) => if x == id && d.Some? then Some(d.value.(requested := true)) else d
    case MCancel => if d.Some? then Some(d.value.(requested := false)) else d
    case MDecide(decision) => if d.Some? && decision == Approve then Some(d.value.(status := DocApproved)) else d
    case _ => d
  }

  function Stored(docs: map<string, Doc>, id: string): Option<Doc> {
    if id in docs then Some(docs[id]) else None
  }

  /** The document stored under `id` after an accepted move. */
  ghost function DocAfter(s: State, m: Move, id: string): Option<Doc>
    requires s.account.Some?
  {
    Edited(s.account.value.role, Stored(s.docs, id), m, id)
  }

  lemma ApplicantDocAfter(s: State, m: Move, id: string)
    requires Inv(s) && s.account.Some? && Apply(s, m).1 == Accepted && !IsSignIn(m) && !IsReview(m) && !m.MUpload?
    ensures Stored(Apply(s, m).0.docs, id) == DocAfter(s, m, id)
  {}

  lemma UploadDocAfter(s: State, x: string, t: FileType, file: string, id: string)
    requires Inv(s) && s.account.Some? && Apply(s, MUpload(x, t, file)).1 == Accepted
    ensures Stored(Apply(s, MUpload(x, t, file)).0.docs, id) == DocAfter(s, MUpload(x, t, file), id)
  {}

  lemma SignInDocAfter(s: State, m: Move, id: string)
    requires Inv(s) && s.account.Some? && IsSignIn(m)
    ensures Stored(Apply(s, m).0.docs, id) == DocAfter(s, m, id)
  {}

  lemma JudgeDocAfter(s: State, m: Move, id: string)
    requires Inv(s) && s.account.Some? && Apply(s, m).1 == Accepted && (m.MJudge? || m.MRequest?)
    ensures Stored(Apply(s, m).0.docs, id) == DocAfter(s, m, id)
  {}

  lemma DecisionDocAfter(s: State, m: Move, id: string)
    requires Inv(s) && s.account.Some? && Apply(s, m).1 == Accepted && (m.MReopen? || m.MDecide? || m.MBlock?)
    ensures Stored(Apply(s, m).0.docs, id) == DocAfter(s, m, id)
  {}

  lemma CancelDocAfter(s: State, id: string)
    requires Inv(s) && s.account.Some? && Apply(s, MCancel).1 == Accepted
    ensures Stored(Apply(s, MCancel).0.docs, id) == DocAfter(s, MCancel, id)
  {}

  /** Whoever the account belongs to, an accepted move leaves every single document as described. */
  lemma DocumentEffect(s: State, m: Move, id: string)
    requires Inv(s) && s.account.Some? && Apply(s, m).1 == Accepted
    ensures Stored(Apply(s, m).0.docs, id) == DocAfter(s, m, id)
  {
    if IsSignIn(m) {
      SignInDocAfter(s, m, id);
    } else if m.MUpload? {
      UploadDocAfter(s, m.id, m.fileType, m.file, id);
    } else if m.MJudge? || m.MRequest? {
      JudgeDocAfter(s, m, id);
    } else if m.MCancel? {
      CancelDocAfter(s, id);
    } else if IsReview(m) {
      DecisionDocAfter(s, m, id);
    } else {
      ApplicantDocAfter(s, m, id);
    }
  }

  // ---------------------------------------------------------------- what becomes of the account

  /** Some document other than this one is asked for. */
  ghost predicate OthersAsked(docs: map<string, Doc>, id: string) {
    exists x :: x in docs && x != id && docs[x].requested
  }

  ghost function StatusAfter(s: State, m: Move): AccountStatus
    requires Case(s)
  {
    var a := s.account.value;
    var confirmed := if a.status != Inactive then a.status else if a.role == Citizen then Active else PendingProfile;
    match m
    case MVerifyOtp(_) => confirmed
    case MLoginWithGoogle(_) => confirmed
    case MSubmitForm(_, _) => if StepsDone(s) + 1 == AllSteps(a.role) then PendingApproval else PendingProfile
    case MReupload(id, _, _) => if OthersAsked(s.docs, id) then NeedChanges else PendingApproval
    case MJudge(id, verdict) =>
      if verdict == DocApproved && a.status == NeedChanges && !OthersAsked(s.docs, id) then PendingApproval
          else a.status
    case MRequest(_) => NeedChanges
    case MReopen => PendingApproval
    case MCancel => PendingApproval
    case MDecide(decision) => if decision == Approve then Active else Rejected
    case MBlock(block) => if block then Blocked else Active
    case _ => a.status
  }

  ghost function AccountAfter(s: State, m: Move): Account
    requires Case(s)
  {
    var a := s.account.value;
    a.(status := StatusAfter(s, m), verified := a.verified || IsSignIn(m),
       googleLinked := a.googleLinked || m.MLoginWithGoogle?)
  }

  /** How many documents the step asks for: two of a factory, one of an institution. */
  function Needed(role: Role): nat {
    match role
    case Factory => 2
    case Institutions => 1
    case _ => 0
  }

  ghost predicate CompletesAStep(s: State, m: Move)
    requires Case(s)
  {
    m.MSubmitForm? || (m.MUpload? && |s.docs| + 1 == Needed(s.account.value.role))
  }

  /** Account, wallets, profile and progress after an accepted move. */
  ghost predicate AccountEffect(s: State, m: Move, s': State)
    requires Case(s)
  {
    && s'.account == Some(AccountAfter(s, m))
    && s'.wallets == (if StatusAfter(s, m) == Active || StatusAfter(s, m) == Blocked then 1 else 0)
    && s'.hasProfile == (s.hasProfile || m == MSubmitForm(Information, true))
    && StepsDone(s') == StepsDone(s) + (if CompletesAStep(s, m) then 1 else 0)
    && (!CompletesAStep(s, m) ==> s'.progress == s.progress)
  }

  lemma SignInAccountEffect(s: State, m: Move)
    requires Case(s) && IsSignIn(m) && Apply(s, m).1 == Accepted
    ensures AccountEffect(s, m, Apply(s, m).0)
  {}

  lemma FormAccountEffect(s: State, form: Form, formOk: bool)
    requires Case(s) && SubmitForm(s, form, formOk).1 == Accepted
    ensures AccountEffect(s, MSubmitForm(form, formOk), SubmitForm(s, form, formOk).0)
  {
    var role := s.account.value.role;
    var steps := OnboardingSteps(role);
    OnboardingStepsDistinct(role);
    if !Reviewable(role) { assert false; }
    StepNames(role);
    CurrentIsNext(s);
    LedgerAdvances(steps, s.progress, StepsDone(s), StepName(form));
  }

  lemma OneMore(docs: map<string, Doc>, id: string, d: Doc)
    requires id !in docs
    ensures |docs[id := d]| == |docs| + 1
  {
    assert docs[id := d].Keys == docs.Keys + {id};
    assert |docs[id := d]| == |docs[id := d].Keys| && |docs| == |docs.Keys|;
  }

  lemma UploaderApplies(s: State, id: string, t: FileType, file: string)
    requires Case(s) && id !in s.docs && UploadImage(s, id, t, file).1 == Accepted
    ensures Reviewable(s.account.value.role)
    ensures s.account.value.role != ExternalPartner ==> s.account.value.status == PendingProfile && StepsDone(s) == 2
  {
    UploadAcceptedIff(s, id, t, file);
  }

  lemma UploadAccountEffect(s: State, id: string, t: FileType, file: string)
    requires Case(s) && id !in s.docs && UploadImage(s, id, t, file).1 == Accepted
    ensures AccountEffect(s, MUpload(id, t, file), UploadImage(s, id, t, file).0)
  {
    UploaderApplies(s, id, t, file);
    OneMore(s.docs, id, Doc(t, s.account.value.role, DocPending, false, file));
    if s.account.value.role != ExternalPartner { DocumentsStepEffect(s); }
  }

  lemma DocumentsStepEffect(s: State)
    requires Case(s) && (s.account.value.role == Factory || s.account.value.role == Institutions) && StepsDone(s) == 2
    ensures var steps := OnboardingSteps(s.account.value.role);
      && |AfterStep(steps, s.progress, "documents")| == 3
      && CurrentStep(steps, Some(AfterStep(steps, s.progress, "documents"))).Some?
  {
    var role := s.account.value.role;
    StepNames(role);
    CurrentIsNext(s);
    OnboardingStepsDistinct(role);
    LedgerAdvances(OnboardingSteps(role), s.progress, 2, "documents");
  }

  lemma OwnerAccountEffect(s: State, m: Move)
    requires Case(s) && Apply(s, m).1 == Accepted && (m.MReplace? || m.MUpdateImage? || m.MDeleteImage?)
    ensures AccountEffect(s, m, Apply(s, m).0)
  {}

  lemma ReuploadAccountEffect(s: State, id: string, mine: bool, file: string)
    requires Case(s) && ReuploadRejectedImage(s, id, mine, file).1 == Accepted
    ensures AccountEffect(s, MReupload(id, mine, file), ReuploadRejectedImage(s, id, mine, file).0)
  {
    var docs := s.docs[id := Renewed(s.docs[id], file)];
    OneDocChanged(s.account.value, s.hasProfile, s.docs, id, docs[id]);
    ReleaseRulesAgree(s.account.value, s.hasProfile, docs);
    OutstandingElsewhere(s.docs, id, docs[id]);
  }

  lemma OutstandingElsewhere(docs: map<string, Doc>, id: string, d: Doc)
    requires id in docs && !d.requested
    ensures Outstanding(docs[id := d]) <==> OthersAsked(docs, id)
  {
    if OthersAsked(docs, id) {
      var x :| x in docs && x != id && docs[x].requested;
      assert docs[id := d][x].requested;
    }
    if Outstanding(docs[id := d]) {
      var x :| x in docs[id := d] && docs[id := d][x].requested;
      assert x != id && docs[x].requested;
    }
  }

  lemma JudgeAccountEffect(s: State, id: string, verdict: DocStatus)
    requires Case(s) && UpdateMediaStatus(s, id, verdict).1 == Accepted
    ensures AccountEffect(s, MJudge(id, verdict), UpdateMediaStatus(s, id, verdict).0)
  {
    if verdict == DocApproved { OutstandingElsewhere(s.docs, id, Cleared(s.docs[id])); }
  }

  lemma DecisionAccountEffect(s: State, m: Move)
    requires Case(s) && Apply(s, m).1 == Accepted && (m.MRequest? || m.MReopen? || m.MDecide? || m.MBlock?)
    ensures AccountEffect(s, m, Apply(s, m).0)
  {}

  lemma CancelAccountEffect(s: State)
    requires Case(s) && Apply(s, MCancel).1 == Accepted
    ensures AccountEffect(s, MCancel, Apply(s, MCancel).0)
  {}

  /** An accepted move leaves account, wallets, profile and progress as described. */
  lemma AccountIsAsDescribed(s: State, m: Move)
    requires Case(s) && Apply(s, m).1 == Accepted
    ensures AccountEffect(s, m, Apply(s, m).0)
  {
    if IsSignIn(m) {
      SignInAccountEffect(s, m);
    } else if m.MSubmitForm? {
      FormAccountEffect(s, m.form, m.formOk);
    } else if m.MUpload? {
      UploadAccountEffect(s, m.id, m.fileType, m.file);
    } else if m.MReupload? {
      ReuploadAccountEffect(s, m.id, m.mine, m.file);
    } else if m.MJudge? {
      JudgeAccountEffect(s, m.id, m.verdict);
    } else if m.MCancel? {
      CancelAccountEffect(s);
    } else if IsReview(m) {
      DecisionAccountEffect(s, m);
    } else {
      OwnerAccountEffect(s, m);
    }
  }

  // ---------------------------------------------------------------- three moves of the reviewer, and the answer

  /** Only a document that was asked for can be replaced by its rejected owner; otherwise nothing changes. */
  lemma ReuploadAnswersARequest(s: State, id: string, mine: bool, file: string)
    requires Case(s)
    ensures var (s', r) := ReuploadRejectedImage(s, id, mine, file);
      && (r == Accepted <==> (s.account.value.status == NeedChanges && id in s.docs && s.docs[id].requested && mine))
      && (r != Accepted ==> s' == s)
  {
    AcceptedIff(s, MReupload(id, mine, file));
    RefusedChangesNothing(s, MReupload(id, mine, file));
  }

  /** Asking for one document asks for that one alone. */
  lemma RequestAsksForOne(s: State, id: string)
    requires Case(s)
    ensures var (s', r) := RequestReupload(s, id);
      && (r == Accepted <==>
           (id in s.docs && s.docs[id].status == DocRejected && !s.docs[id].requested
             && (s.account.value.status == PendingApproval || s.account.value.status == NeedChanges)))
      && (r != Accepted ==> s' == s)
      && (r == Accepted ==> forall x ::
            Stored(s'.docs, x) == if x == id then Some(s.docs[id].(requested := true)) else Stored(s.docs, x))
  {
    AcceptedIff(s, MRequest(id));
    RefusedChangesNothing(s, MRequest(id));
    if RequestReupload(s, id).1 == Accepted {
      forall x ensures Stored(RequestReupload(s, id).0.docs, x)
        == if x == id then Some(s.docs[id].(requested := true)) else Stored(s.docs, x)
      {
        DocumentEffect(s, MRequest(id), x);
      }
    }
  }

  lemma SameStored(a: map<string, Doc>, b: map<string, Doc>)
    requires forall x :: Stored(a, x) == Stored(b, x)
    ensures a == b
  {
    forall x ensures (x in a <==> x in b) && (x in a ==> a[x] == b[x]) {
      assert Stored(a, x) == Stored(b, x);
    }
  }

  /** Whatever the reply, a rejection leaves every document, the wallets, the profile and the progress as they were. */
  lemma RejectKeepsEverything(s: State)
    requires Case(s)
    ensures var s' := UpdateStatus(s, Reject).0;
      s'.docs == s.docs && s'.wallets == s.wallets && s'.hasProfile == s.hasProfile && s'.progress == s.progress
  {
    RefusedChangesNothing(s, MDecide(Reject));
    if UpdateStatus(s, Reject).1 == Accepted {
      AccountIsAsDescribed(s, MDecide(Reject));
      AcceptedIff(s, MDecide(Reject));
      forall x ensures Stored(UpdateStatus(s, Reject).0.docs, x) == Stored(s.docs, x) {
        DocumentEffect(s, MDecide(Reject), x);
      }
      SameStored(UpdateStatus(s, Reject).0.docs, s.docs);
    }
  }

  /** An approval accepts the unread documents and leaves the others alone; type, owner and file are kept. */
  lemma ApproveAcceptsTheUnread(s: State, id: string)
    requires Case(s) && UpdateStatus(s, Approve).1 == Accepted
    ensures Stored(UpdateStatus(s, Approve).0.docs, id)
         == if id in s.docs && s.docs[id].status == DocPending then Some(s.docs[id].(status := DocApproved))
            else Stored(s.docs, id)
  {
    AcceptedIff(s, MDecide(Approve));
    DocumentEffect(s, MDecide(Approve), id);
  }

  // ---------------------------------------------------------------- signing up

  function GoogleStatus(role: Role): AccountStatus {
    if role == Citizen || role == Admin then Active else PendingProfile
  }

  /** An unused address gets an account exactly when the phone number is free. */
  lemma SignUpEffect(role: Role, phoneTaken: bool)
    ensures Apply(NOTHING, MRegister(role, phoneTaken))
         == if phoneTaken then (NOTHING, Refused(PhoneAlreadyExists))
            else (State(Some(Account(role, Inactive, false, true, false)), 0, false, None, map[]), Accepted)
    ensures Apply(NOTHING, MRegisterWithGoogle(role, phoneTaken))
         == if phoneTaken then (NOTHING, Refused(PhoneAlreadyExists))
            else (State(Some(Account(role, GoogleStatus(role), true, false, true)),
                        if role == Citizen then 1 else 0, false, None, map[]), Accepted)
  {}

  /** Once there is an account, signing up again changes nothing, whatever the account. */
  lemma SignUpIsOnce(s: State, m: Move)
    requires s.account.Some? && (m.MRegister? || m.MRegisterWithGoogle?)
    ensures Apply(s, m).0 == s && Apply(s, m).1 != Accepted
    ensures Apply(s, m).1 == Unchanged <==>
      && m.MRegister? && !s.account.value.verified
      && (s.account.value.hasPassword || !s.account.value.googleLinked)
  {}

  /** A wrong code changes nothing, whatever the account. */
  lemma WrongCodeChangesNothing(s: State)
    ensures Apply(s, MVerifyOtp(false)).0 == s && Apply(s, MVerifyOtp(false)).1 != Accepted
  {}
}
