/**
 * The check that completes the documents step is documented as asking whether all required images are uploaded and
 * approved, and it only counts them: when the two agree, and what would become of an application otherwise.
 */
module DocumentCount {
  import opened Sequences
  import opened Onboarding
  import opened AccountRules
  import opened AccountInvariants

  /** The check as it is made. */
  predicate Counted(docs: map<string, Doc>, role: Role) {
    RequiredCount(role) == Some(|docs|)
  }

  /** The check as it is documented. */
  ghost predicate AllApproved(docs: map<string, Doc>, role: Role) {
    Counted(docs, role) && AllDocs(docs, DocApproved)
  }

  // ---------------------------------------------------------------- how many documents there are

  /** The roles for which documents are a step. */
  predicate NeedsDocuments(role: Role) {
    role == Factory || role == Institutions
  }

  /**
   * Too few documents until their step is done; then exactly as many as it takes, until the account has been let in
   * and its owner may delete some.
   */
  ghost predicate CountInv(s: State) {
    s.account.Some? && NeedsDocuments(s.account.value.role) ==>
      var a := s.account.value;
      && RequiredCount(a.role).Some?
      && var n := RequiredCount(a.role).value;
         if a.status == Active || a.status == Blocked then |s.docs| <= n
         else if StepsDone(s) < 3 then |s.docs| < n
         else |s.docs| == n
  }

  lemma FormKeepsCount(s: State, form: Form, ok: bool)
    requires Case(s) && CountInv(s) && NeedsDocuments(s.account.value.role)
    ensures CountInv(SubmitForm(s, form, ok).0)
  {
    if SubmitForm(s, form, ok).1 == Accepted {
      var steps := OnboardingSteps(s.account.value.role);
      OnboardingStepsDistinct(s.account.value.role);
      LedgerAdvances(steps, s.progress, StepsDone(s), StepName(form));
      NextAfterPrefix(steps, StepsDone(s));
      assert steps[2] == "documents";
    }
  }

  /** An upload is only accepted in the documents step, and completing it leads to the last one. */
  lemma UploadIsTheThirdStep(s: State, id: string, t: FileType, file: string)
    requires Case(s) && NeedsDocuments(s.account.value.role) && id !in s.docs
    requires UploadImage(s, id, t, file).1 == Accepted
    ensures s.account.value.status == PendingProfile && StepsDone(s) == 2
    ensures |AfterStep(OnboardingSteps(s.account.value.role), s.progress, "documents")| == 3
    ensures CurrentStep(OnboardingSteps(s.account.value.role),
                        Some(AfterStep(OnboardingSteps(s.account.value.role), s.progress, "documents"))).Some?
  {
    var steps := OnboardingSteps(s.account.value.role);
    OnboardingStepsDistinct(s.account.value.role);
    NextAfterPrefix(steps, StepsDone(s));
    assert steps[2] == "documents" && |steps| == 4;
    LedgerAdvances(steps, s.progress, StepsDone(s), "documents");
  }

  lemma OneMoreDocument(docs: map<string, Doc>, id: string, d: Doc)
    requires id !in docs
    ensures |docs[id := d]| == |docs| + 1
  {
    assert docs[id := d].Keys == docs.Keys + {id};
    assert |docs[id := d]| == |docs[id := d].Keys| && |docs| == |docs.Keys|;
  }

  lemma UploadKeepsCount(s: State, id: string, t: FileType, file: string)
    requires Case(s) && CountInv(s) && NeedsDocuments(s.account.value.role) && id !in s.docs
    ensures CountInv(UploadImage(s, id, t, file).0)
  {
    if UploadImage(s, id, t, file).1 == Accepted {
      UploadIsTheThirdStep(s, id, t, file);
      OneMoreDocument(s.docs, id, Doc(t, s.account.value.role, DocPending, false, file));
    }
  }

  lemma DeleteKeepsCount(s: State, id: string, mine: bool)
    requires Case(s) && CountInv(s)
    ensures CountInv(DeleteImage(s, id, mine).0)
  {
    if DeleteImage(s, id, mine).1 == Accepted {
      assert s.docs.Keys == (s.docs - {id}).Keys + {id} && |s.docs| == |s.docs.Keys|;
      assert |(s.docs - {id}).Keys| == |s.docs - {id}|;
    }
  }

  lemma SameNumber(docs: map<string, Doc>, docs': map<string, Doc>)
    requires docs.Keys == docs'.Keys
    ensures |docs| == |docs'|
  {
    assert |docs| == |docs.Keys| && |docs'| == |docs'.Keys|;
  }

  /** No other move adds or removes a document or completes a step. */
  lemma OtherMoveKeepsNumber(s: State, m: Move)
    requires Case(s) && !m.MSubmitForm? && !m.MUpload? && !m.MDeleteImage?
    ensures Apply(s, m).0.docs.Keys == s.docs.Keys && Apply(s, m).0.progress == s.progress
  {
    if IsSignIn(m) {
      SignInKeepsDocuments(s, m);
    } else if IsReview(m) {
      ReviewKeepsDocuments(s, m);
    }
  }

  lemma SignInKeepsDocuments(s: State, m: Move)
    requires s.account.Some? && IsSignIn(m)
    ensures Apply(s, m).0.docs == s.docs && Apply(s, m).0.progress == s.progress
  {}

  lemma ReviewKeepsDocuments(s: State, m: Move)
    requires s.account.Some? && IsReview(m)
    ensures Apply(s, m).0.docs.Keys == s.docs.Keys && Apply(s, m).0.progress == s.progress
  {}

  /** An account that has been let in was complete before, and one that has not keeps its number. */
  lemma OtherMoveKeepsCount(s: State, m: Move)
    requires Case(s) && CountInv(s) && !m.MSubmitForm? && !m.MUpload? && !m.MDeleteImage?
    ensures CountInv(Apply(s, m).0)
  {
    var s' := Apply(s, m).0;
    MoveGoesAlongAnEdge(s, m);
    OtherMoveKeepsNumber(s, m);
    SameNumber(s.docs, s'.docs);
  }

  lemma MoveKeepsCount(s: State, m: Move)
    requires Inv(s) && CountInv(s)
    ensures CountInv(Apply(s, m).0)
  {
    if s.account.None? {
      NothingToCount(m);
    } else {
      AnyAccountKeeps(s, m);
      if NeedsDocuments(s.account.value.role) {
        match m
        case MSubmitForm(form, ok) => FormKeepsCount(s, form, ok);
        case MUpload(id, t, file) => if id !in s.docs { UploadKeepsCount(s, id, t, file); }
        case MDeleteImage(id, mine) => DeleteKeepsCount(s, id, mine);
        case _ => OtherMoveKeepsCount(s, m);
      }
    }
  }

  lemma NothingToCount(m: Move)
    ensures CountInv(Apply(NOTHING, m).0)
  {}

  lemma {:induction false} RunKeepsCount(s: State, moves: seq<Move>)
    requires Inv(s) && CountInv(s)
    ensures CountInv(Run(s, moves))
    decreases |moves|
  {
    if moves != [] {
      MoveKeepsInv(s, moves[0]);
      MoveKeepsCount(s, moves[0]);
      RunKeepsCount(Apply(s, moves[0]).0, moves[1..]);
    }
  }

  /**
   * On every run a factory or an institution holds fewer documents than its step asks for until the step is done, and
   * exactly that many afterwards until it is let in.
   */
  lemma DocumentsAreCounted(moves: seq<Move>)
    requires Reaches(moves) && NeedsDocuments(Run(NOTHING, moves).account.value.role)
    ensures var s := Run(NOTHING, moves);
      var a, n := s.account.value, RequiredCount(s.account.value.role).value;
      && n == (if a.role == Factory then 2 else 1)
      && (a.status != Active && a.status != Blocked ==>
            if StepsDone(s) < 3 then |s.docs| < n else |s.docs| == n)
      && (UnderReview(a.status) || a.status == Rejected ==> |s.docs| == n)
  {
    EveryReachableState(moves);
    RunKeepsCount(NOTHING, moves);
  }

  // ---------------------------------------------------------------- the two questions

  /**
   * On every run the check and its documentation agree, for a factory or an institution: never between the documents
   * step and the submission, exactly if all documents are approved while the application is reviewed or rejected, and
   * otherwise always. For the others, who have no such step, they always agree.
   */
  lemma CheckAgreesIff(moves: seq<Move>)
    requires Reaches(moves)
    ensures var s := Run(NOTHING, moves);
      var a := s.account.value;
      (Counted(s.docs, a.role) == AllApproved(s.docs, a.role)) <==>
        NeedsDocuments(a.role) ==>
          match a.status
          case Inactive => true
          case PendingProfile => StepsDone(s) < 3
          case Active => true
          case Blocked => true
          case _ => AllDocs(s.docs, DocApproved)
  {
    var s := Run(NOTHING, moves);
    EveryReachableState(moves);
    if NeedsDocuments(s.account.value.role) {
      DocumentsAreCounted(moves);
      if |s.docs| > 0 {
        assert s.docs.Keys != {};
        var id :| id in s.docs;
      }
    }
  }

  /**
   * When the check is made, after an accepted upload, the new document is unread: the documented answer is always no.
   */
  lemma UploadedIsUnread(s: State, id: string, t: FileType, file: string)
    requires id !in s.docs && UploadImage(s, id, t, file).1 == Accepted
    ensures var docs := UploadImage(s, id, t, file).0.docs; id in docs && docs[id].status == DocPending
  {}

  // ---------------------------------------------------------------- the machine with the documented check

  ghost function UploadAsDocumented(s: State, id: string, t: FileType, file: string): State
    requires id !in s.docs
  {
    if UploadImage(s, id, t, file).1 != Accepted then s
    else
      var role := s.account.value.role;
      var s' := s.(docs := s.docs[id := Doc(t, role, DocPending, false, file)]);
      if AllApproved(s'.docs, role) then StepDone(s', "documents") else s'
  }

  ghost function ApplyAsDocumented(s: State, m: Move): State {
    match m
    case MUpload(id, t, file) => if id in s.docs then s else UploadAsDocumented(s, id, t, file)
    case _ => Apply(s, m).0
  }

  ghost function RunAsDocumented(s: State, moves: seq<Move>): State
    decreases |moves|
  {
    if moves == [] then s else RunAsDocumented(ApplyAsDocumented(s, moves[0]), moves[1..])
  }

  /** Applying, and no further than the documents step. */
  ghost predicate StillApplying(s: State) {
    s.account.Some? && NeedsDocuments(s.account.value.role) ==>
      && (s.account.value.status == Inactive || s.account.value.status == PendingProfile)
      && var steps, done := OnboardingSteps(s.account.value.role), if s.progress.None? then [] else s.progress.value;
         |done| <= 2 <= |steps| && done == steps[..|done|]
  }

  lemma FormBeforeDocuments(s: State, form: Form, ok: bool)
    requires StillApplying(s) && s.account.Some? && NeedsDocuments(s.account.value.role)
    ensures StillApplying(SubmitForm(s, form, ok).0)
  {
    if SubmitForm(s, form, ok).1 == Accepted {
      var steps := OnboardingSteps(s.account.value.role);
      var m := if s.progress.None? then 0 else |s.progress.value|;
      OnboardingStepsDistinct(s.account.value.role);
      NextAfterPrefix(steps, m);
      LedgerAdvances(steps, s.progress, m, StepName(form));
      assert steps[2] == "documents";
    }
  }

  lemma UploadBeforeDocuments(s: State, id: string, t: FileType, file: string)
    requires StillApplying(s) && s.account.Some? && NeedsDocuments(s.account.value.role) && id !in s.docs
    ensures StillApplying(UploadAsDocumented(s, id, t, file)) && UploadAsDocumented(s, id, t, file).account.Some?
  {
    if UploadImage(s, id, t, file).1 == Accepted { UploadedIsUnread(s, id, t, file); }
  }

  lemma OtherMoveBeforeDocuments(s: State, m: Move)
    requires StillApplying(s) && s.account.Some? && NeedsDocuments(s.account.value.role)
    requires !m.MSubmitForm? && !m.MUpload?
    ensures StillApplying(Apply(s, m).0) && Apply(s, m).0.account.Some?
  {}

  lemma MoveBeforeDocuments(s: State, m: Move)
    requires StillApplying(s) && (s.account.None? ==> s == NOTHING)
    ensures StillApplying(ApplyAsDocumented(s, m))
    ensures ApplyAsDocumented(s, m).account.None? ==> ApplyAsDocumented(s, m) == NOTHING
  {
    if s.account.None? {
      SignUpStillApplies(m);
    } else if NeedsDocuments(s.account.value.role) {
      OtherRolesStay(s, m);
      if m.MSubmitForm? {
        FormBeforeDocuments(s, m.form, m.formOk);
      } else if m.MUpload? {
        if m.id !in s.docs { UploadBeforeDocuments(s, m.id, m.fileType, m.file); }
      } else {
        OtherMoveBeforeDocuments(s, m);
      }
    } else {
      OtherRolesStay(s, m);
    }
  }

  lemma SignUpStillApplies(m: Move)
    ensures StillApplying(ApplyAsDocumented(NOTHING, m))
    ensures ApplyAsDocumented(NOTHING, m).account.None? ==> ApplyAsDocumented(NOTHING, m) == NOTHING
  {}

  lemma OtherRolesStay(s: State, m: Move)
    requires s.account.Some?
    ensures var s' := ApplyAsDocumented(s, m); s'.account.Some? && s'.account.value.role == s.account.value.role
  {
    if !m.MUpload? { AnyAccountKeeps(s, m); }
  }

  lemma {:induction false} RunBeforeDocuments(s: State, moves: seq<Move>)
    requires StillApplying(s) && (s.account.None? ==> s == NOTHING)
    ensures StillApplying(RunAsDocumented(s, moves))
    decreases |moves|
  {
    if moves != [] {
      MoveBeforeDocuments(s, moves[0]);
      RunBeforeDocuments(ApplyAsDocumented(s, moves[0]), moves[1..]);
    }
  }

  /** With the documented check no run would ever bring a factory or an institution under review. */
  lemma NobodyCouldApply(moves: seq<Move>)
    ensures var a := RunAsDocumented(NOTHING, moves).account;
      a.Some? && NeedsDocuments(a.value.role) ==> a.value.status == Inactive || a.value.status == PendingProfile
  {
    RunBeforeDocuments(NOTHING, moves);
  }
}
