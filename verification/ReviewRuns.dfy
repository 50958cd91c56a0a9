/** Runs of one factory's application, showing where the review does not do what is said of it. */
module ReviewRuns {
  import opened Sequences
  import opened Onboarding
  import opened AccountRules
  import opened AccountInvariants
  import opened DocumentCount
  import opened ReviewProgress
  import opened ReuploadRequests

  // ---------------------------------------------------------------- a factory applies

  /** A factory with `m` of its steps done and these documents. */
  function FactoryCase(status: AccountStatus, m: nat, docs: map<string, Doc>): State
    requires m <= |OnboardingSteps(Factory)|
  {
    State(Some(Account(Factory, status, true, true, false)), 0, m > 0, Some(OnboardingSteps(Factory)[..m]), docs)
  }

  lemma {:induction false} RunConcat(s: State, a: seq<Move>, b: seq<Move>)
    ensures Run(s, a + b) == Run(Run(s, a), b)
    decreases |a|
  {
    if a == [] {
      assert a + b == b;
    } else {
      var m, rest := a[0], a[1..];
      RunConcat(Apply(s, m).0, rest, b);
      assert a + b == [m] + (rest + b);
      RunCons(s, m, rest + b);
    }
  }

  lemma RunTwo(s: State, m: Move, m': Move, rest: seq<Move>)
    ensures Run(s, [m, m'] + rest) == Run(Apply(Apply(s, m).0, m').0, rest)
  {
    assert ([m, m'] + rest)[1..] == [m'] + rest && ([m'] + rest)[1..] == rest;
  }

  lemma FormsGoIn()
    ensures Run(NOTHING, [MRegister(Factory, false), MVerifyOtp(true), MSubmitForm(Information, true),
        MSubmitForm(Location, true)])
         == FactoryCase(PendingProfile, 2, map[])
  {
    var steps := OnboardingSteps(Factory);
    var s := State(Some(Account(Factory, PendingProfile, true, true, false)), 0, false, None, map[]);
    assert Run(NOTHING, [MRegister(Factory, false), MVerifyOtp(true)]) == s;
    OnboardingStepsDistinct(Factory);
    LedgerAdvances(steps, None, 0, steps[0]);
    assert Apply(s, MSubmitForm(Information, true)).0 == FactoryCase(PendingProfile, 1, map[]);
    LedgerAdvances(steps, Some(steps[..1]), 1, steps[1]);
  }

  const FIRST := "first"

  function TwoDocs(a: string, b: string, status: DocStatus, requested: bool): map<string, Doc> {
    map[a := Doc(License, Factory, status, requested, FIRST),
        b := Doc(IndustrialReg, Factory, DocPending, false, FIRST)]
  }

  lemma FactoryStep(m: nat)
    requires m < 4
    ensures var steps := OnboardingSteps(Factory);
      && |steps| == 4 && CurrentStep(steps, Some(steps[..m])) == Some(steps[m])
      && AfterStep(steps, Some(steps[..m]), steps[m]) == steps[..m+1]
      && (CurrentStep(steps, Some(steps[..m+1])).None? <==> m == 3)
  {
    var steps := OnboardingSteps(Factory);
    OnboardingStepsDistinct(Factory);
    NextAfterPrefix(steps, m);
    LedgerAdvances(steps, Some(steps[..m]), m, steps[m]);
  }

  lemma FirstUpload(a: string)
    ensures Apply(FactoryCase(PendingProfile, 2, map[]), MUpload(a, License, FIRST)).0
         == FactoryCase(PendingProfile, 2, map[a := Doc(License, Factory, DocPending, false, FIRST)])
  {
    FactoryStep(2);
    var one: map<string, Doc> := map[a := Doc(License, Factory, DocPending, false, FIRST)];
    assert one.Keys == {a} && |one| == |one.Keys|;
  }

  lemma SecondUpload(a: string, b: string)
    requires a != b
    ensures Apply(FactoryCase(PendingProfile, 2, map[a := Doc(License, Factory, DocPending, false, FIRST)]),
        MUpload(b, IndustrialReg, FIRST)).0
         == FactoryCase(PendingProfile, 3, TwoDocs(a, b, DocPending, false))
  {
    FactoryStep(2);
    var two := TwoDocs(a, b, DocPending, false);
    assert two.Keys == {a, b} && |two| == |two.Keys|;
    assert map[a := Doc(License, Factory, DocPending, false, FIRST)][b := Doc(IndustrialReg, Factory, DocPending,
        false, FIRST)] == two;
  }

  lemma LastForm(docs: map<string, Doc>)
    ensures Apply(FactoryCase(PendingProfile, 3, docs), MSubmitForm(Materials, true)).0
        == FactoryCase(PendingApproval, 4, docs)
  {
    FactoryStep(3);
  }

  lemma OneIsRejected(a: string, b: string)
    requires a != b
    ensures Apply(FactoryCase(PendingApproval, 4, TwoDocs(a, b, DocPending, false)), MJudge(a, DocRejected)).0
         == FactoryCase(PendingApproval, 4, TwoDocs(a, b, DocRejected, false))
  {
    var docs := TwoDocs(a, b, DocPending, false);
    assert docs[a := docs[a].(status := DocRejected)] == TwoDocs(a, b, DocRejected, false);
  }

  lemma OneIsAskedFor(a: string, b: string)
    requires a != b
    ensures Apply(FactoryCase(PendingApproval, 4, TwoDocs(a, b, DocRejected, false)), MRequest(a)).0
         == FactoryCase(NeedChanges, 4, TwoDocs(a, b, DocRejected, true))
  {
    var docs := TwoDocs(a, b, DocRejected, false);
    assert docs[a := docs[a].(requested := true)] == TwoDocs(a, b, DocRejected, true);
  }

  /** Rejected and then asked for. */
  lemma OneIsWaitedFor(a: string, b: string)
    requires a != b
    ensures Run(FactoryCase(PendingApproval, 4, TwoDocs(a, b, DocPending, false)),
        [MJudge(a, DocRejected), MRequest(a)] + [])
         == FactoryCase(NeedChanges, 4, TwoDocs(a, b, DocRejected, true))
  {
    RunTwo(FactoryCase(PendingApproval, 4, TwoDocs(a, b, DocPending, false)), MJudge(a, DocRejected), MRequest(a), []);
    OneIsRejected(a, b);
    OneIsAskedFor(a, b);
  }

  lemma UploadedRun(a: string, b: string) returns (moves: seq<Move>)
    requires a != b
    ensures Run(NOTHING, moves) == FactoryCase(PendingProfile, 3, TwoDocs(a, b, DocPending, false))
  {
    var forms := [MRegister(Factory, false), MVerifyOtp(true), MSubmitForm(Information, true),
        MSubmitForm(Location, true)];
    var docs := [MUpload(a, License, FIRST), MUpload(b, IndustrialReg, FIRST)] + [];
    FormsGoIn();
    FirstUpload(a);
    SecondUpload(a, b);
    RunTwo(FactoryCase(PendingProfile, 2, map[]), MUpload(a, License, FIRST), MUpload(b, IndustrialReg, FIRST), []);
    RunConcat(NOTHING, forms, docs);
    moves := forms + docs;
  }

  lemma SubmittedRun(a: string, b: string) returns (moves: seq<Move>)
    requires a != b
    ensures Run(NOTHING, moves) == FactoryCase(PendingApproval, 4, TwoDocs(a, b, DocPending, false))
  {
    var uploaded := UploadedRun(a, b);
    RunConcat(NOTHING, uploaded, [MSubmitForm(Materials, true)]);
    LastForm(TwoDocs(a, b, DocPending, false));
    moves := uploaded + [MSubmitForm(Materials, true)];
  }

  // ---------------------------------------------------------------- a run in which counting is not judging

  /** A run after which the documents are counted as complete although none of them has been read. */
  lemma CountedButUnread(a: string, b: string)
    requires a != b
    ensures exists moves ::
      && Reaches(moves)
      && var s := Run(NOTHING, moves);
         && Counted(s.docs, s.account.value.role) && !AllApproved(s.docs, s.account.value.role)
         && AllDocs(s.docs, DocPending) && s.docs.Keys == {a, b}
  {
    var moves := UploadedRun(a, b);
    var docs := TwoDocs(a, b, DocPending, false);
    assert Run(NOTHING, moves).docs == docs;
    assert docs.Keys == {a, b} && |docs| == |docs.Keys| == 2;
    assert docs[a].status == DocPending;
  }

  // ---------------------------------------------------------------- a run in which cancelling is not enough

  lemma StalledRun(a: string, b: string) returns (moves: seq<Move>)
    requires a != b
    ensures Run(NOTHING, moves) == FactoryCase(NeedChanges, 4, TwoDocs(a, b, DocRejected, true))
  {
    var submitted := SubmittedRun(a, b);
    var ask := [MJudge(a, DocRejected), MRequest(a)] + [];
    OneIsWaitedFor(a, b);
    RunConcat(NOTHING, submitted, ask);
    moves := submitted + ask;
  }

  /** A run after which cancelling brings the application back, yet it can be neither approved nor rejected. */
  lemma CancelCanLeaveNoDecision(a: string, b: string)
    requires a != b
    ensures exists moves ::
      && Reaches(moves) && InStatus(Run(NOTHING, moves), NeedChanges)
      && var s := Apply(Run(NOTHING, moves), MCancel).0;
         && Apply(s, MDecide(Approve)).1 == Refused(ApprovalBlockedByRejectedDocument)
         && Apply(s, MDecide(Reject)).1 == Refused(RejectionNeedsEveryDocumentJudged)
  {
    var moves := StalledRun(a, b);
    EveryReachableState(moves);
    var s := Run(NOTHING, moves);
    assert s.docs[b].status == DocPending;
    CancelWithdrawsTheQuestion(s);
    CancelReleases(s);
    SameVerdicts(s.docs, Withdrawn(s.docs), DocPending);
    DecisionGates(Apply(s, MCancel).0);
  }

  // ---------------------------------------------------------------- a run in which one answer is not enough

  lemma OtherIsAskedForToo(a: string, b: string)
    requires a != b
    ensures var s := FactoryCase(NeedChanges, 4, TwoDocs(a, b, DocRejected, true));
      var s' := Apply(Apply(s, MJudge(b, DocRejected)).0, MRequest(b)).0;
      InStatus(s', NeedChanges) && a in AskedFor(s'.docs) && b in AskedFor(s'.docs)
  {
    var s := FactoryCase(NeedChanges, 4, TwoDocs(a, b, DocRejected, true));
    var s1 := Apply(s, MJudge(b, DocRejected)).0;
    assert s1 == s.(docs := s.docs[b := s.docs[b].(status := DocRejected)]);
    var s2 := Apply(s1, MRequest(b)).0;
    assert s2.docs == s1.docs[b := s1.docs[b].(requested := true)];
  }

  /** A run after which the applicant replaces a requested document and the account goes on waiting. */
  lemma OneAnswerIsNotEnough(a: string, b: string, file: string)
    requires a != b
    ensures exists moves ::
      && Reaches(moves) && InStatus(Run(NOTHING, moves), NeedChanges)
      && Apply(Run(NOTHING, moves), MReupload(a, true, file)).1 == Accepted
      && InStatus(Apply(Run(NOTHING, moves), MReupload(a, true, file)).0, NeedChanges)
  {
    var stalled := StalledRun(a, b);
    var more := [MJudge(b, DocRejected), MRequest(b)] + [];
    RunConcat(NOTHING, stalled, more);
    RunTwo(Run(NOTHING, stalled), MJudge(b, DocRejected), MRequest(b), []);
    OtherIsAskedForToo(a, b);
    var moves := stalled + more;
    var s := Run(NOTHING, moves);
    FactoryRunIsFollowed(moves, stalled, more);
    AnswerOne(s, a, file);
    assert b in AskedFor(s.docs) - {a};
  }

  lemma FactoryRunIsFollowed(moves: seq<Move>, first: seq<Move>, more: seq<Move>)
    requires moves == first + more && Reaches(first)
    ensures Reaches(moves) && Case(Run(NOTHING, moves))
    decreases |more|
  {
    if more == [] {
      assert first + more == first;
      EveryReachableState(first);
    } else {
      var m := more[0];
      RunSnoc(NOTHING, first, m);
      AnyAccountKeeps(Run(NOTHING, first), m);
      assert moves == (first + [m]) + more[1..];
      FactoryRunIsFollowed(moves, first + [m], more[1..]);
    }
  }

  // ---------------------------------------------------------------- a run in which the evidence changes

  lemma Approved(a: string, b: string)
    requires a != b
    ensures Apply(FactoryCase(PendingApproval, 4, TwoDocs(a, b, DocPending, false)), MDecide(Approve)).0
         == FactoryCase(Active, 4, PendingApproved(TwoDocs(a, b, DocPending, false))).(wallets := 1)
  {}

  lemma FileExchanged(s: State, id: string, file: string)
    requires InStatus(s, Active) && s.hasProfile && id in s.docs
    ensures var s' := Apply(s, MUpdateImage(id, true, file)).0;
      InStatus(s', Active) && id in s'.docs && s'.docs[id] == s.docs[id].(file := file)
  {}

  /** A run after which an ACTIVE account holds an approved document whose file no reviewer has seen. */
  lemma ApprovedFileCanBeExchanged(a: string, b: string, file: string)
    requires a != b
    ensures exists moves, m ::
      && InStatus(Run(NOTHING, moves), Active) && m == MUpdateImage(a, true, file)
      && var s, s' := Run(NOTHING, moves), Apply(Run(NOTHING, moves), m).0;
         && InStatus(s', Active) && a in s.docs && a in s'.docs && s'.docs[a].status == DocApproved
         && s.docs[a].file == FIRST && s'.docs[a].file == file
  {
    var submitted := SubmittedRun(a, b);
    RunConcat(NOTHING, submitted, [MDecide(Approve)]);
    Approved(a, b);
    var moves := submitted + [MDecide(Approve)];
    var s := Run(NOTHING, moves);
    assert s == FactoryCase(Active, 4, PendingApproved(TwoDocs(a, b, DocPending, false))).(wallets := 1);
    FileExchanged(s, a, file);
  }

  lemma OneIsAccepted(a: string, b: string)
    requires a != b
    ensures var s := FactoryCase(PendingApproval, 4, TwoDocs(a, b, DocPending, false));
      Apply(s, MJudge(a, DocApproved)).0 == FactoryCase(PendingApproval, 4, TwoDocs(a, b, DocApproved, false))
  {
    var docs := TwoDocs(a, b, DocPending, false);
    assert docs[a := Cleared(docs[a])] == TwoDocs(a, b, DocApproved, false);
  }

  /** A run in which the reviewer accepts a document, and the applicant then replaces it by an unread one. */
  lemma AcceptedDocumentCanBeReplaced(a: string, b: string, file: string)
    requires a != b
    ensures exists moves, m ::
      && Reaches(moves) && InStatus(Run(NOTHING, moves), PendingApproval) && m == MReplace(a, true, file)
      && var s, (s', r) := Run(NOTHING, moves), Apply(Run(NOTHING, moves), m);
         && r == Accepted && InStatus(s', PendingApproval) && a in s.docs && a in s'.docs
         && s.docs[a].status == DocApproved && s.docs[a].file == FIRST
         && s'.docs[a].status == DocPending && s'.docs[a].file == file
  {
    var submitted := SubmittedRun(a, b);
    RunConcat(NOTHING, submitted, [MJudge(a, DocApproved)]);
    OneIsAccepted(a, b);
    var moves := submitted + [MJudge(a, DocApproved)];
    assert Run(NOTHING, moves) == FactoryCase(PendingApproval, 4, TwoDocs(a, b, DocApproved, false));
    var m := MReplace(a, true, file);
    assert Apply(Run(NOTHING, moves), m).1 == Accepted;
  }
}
