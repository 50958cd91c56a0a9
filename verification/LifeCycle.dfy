/**
 * The life cycle of an application is exactly the eleven edges: each is taken on some run, and no run takes another.
 */
module LifeCycle {
  import opened AccountRules
  import opened AccountInvariants
  import opened ReviewProgress
  import opened ReuploadRequests
  import opened ReviewRuns

  /** Some move, accepted after some run, takes a followed account from one status to another. */
  ghost predicate Taken(from: AccountStatus, to: AccountStatus) {
    exists s, m :: TakenBy(s, m, from, to)
  }

  ghost predicate TakenBy(s: State, m: Move, from: AccountStatus, to: AccountStatus) {
    && Reachable(s) && InStatus(s, from) && Followed(s.account.value.role)
    && Apply(s, m).1 == Accepted && InStatus(Apply(s, m).0, to)
  }

  predicate IsEdge(from: AccountStatus, to: AccountStatus) {
    match (from, to)
    case (Inactive, Active) => true
    case (Inactive, PendingProfile) => true
    case (PendingProfile, PendingApproval) => true
    case (PendingApproval, NeedChanges) => true
    case (NeedChanges, PendingApproval) => true
    case (PendingApproval, Active) => true
    case (PendingApproval, Rejected) => true
    case (Rejected, Active) => true
    case (Rejected, PendingApproval) => true
    case (Active, Blocked) => true
    case (Blocked, Active) => true
    case _ => false
  }

  lemma NothingIsReachable()
    ensures Reachable(NOTHING)
  {
    assert Run(NOTHING, []) == NOTHING;
  }

  // ---------------------------------------------------------------- from sign-up to submission

  lemma SignUpEdges()
    ensures Taken(Inactive, Active) && Taken(Inactive, PendingProfile)
  {
    NothingIsReachable();
    var citizen, factory := Apply(NOTHING, MRegister(Citizen, false)).0, Apply(NOTHING, MRegister(Factory, false)).0;
    StaysReachable(NOTHING, MRegister(Citizen, false));
    StaysReachable(NOTHING, MRegister(Factory, false));
    assert TakenBy(citizen, MVerifyOtp(true), Inactive, Active);
    assert TakenBy(factory, MVerifyOtp(true), Inactive, PendingProfile);
  }

  lemma SubmissionEdge(a: string, b: string)
    requires a != b
    ensures Taken(PendingProfile, PendingApproval)
    ensures Reachable(FactoryCase(PendingApproval, 4, TwoDocs(a, b, DocPending, false)))
  {
    var moves := UploadedRun(a, b);
    var s, m := FactoryCase(PendingProfile, 3, TwoDocs(a, b, DocPending, false)), MSubmitForm(Materials, true);
    LastForm(TwoDocs(a, b, DocPending, false));
    StaysReachable(s, m);
    LastFormAccepted(TwoDocs(a, b, DocPending, false));
    assert TakenBy(s, m, PendingProfile, PendingApproval);
  }

  lemma LastFormAccepted(docs: map<string, Doc>)
    ensures Apply(FactoryCase(PendingProfile, 3, docs), MSubmitForm(Materials, true)).1 == Accepted
  {
    FactoryStep(3);
  }

  // ---------------------------------------------------------------- under review

  lemma RequestEdges(a: string, b: string)
    requires a != b
    ensures Taken(PendingApproval, NeedChanges) && Taken(NeedChanges, PendingApproval)
  {
    SubmissionEdge(a, b);
    var rejected := FactoryCase(PendingApproval, 4, TwoDocs(a, b, DocRejected, false));
    var asked := FactoryCase(NeedChanges, 4, TwoDocs(a, b, DocRejected, true));
    OneIsRejected(a, b);
    StaysReachable(FactoryCase(PendingApproval, 4, TwoDocs(a, b, DocPending, false)), MJudge(a, DocRejected));
    OneIsAskedFor(a, b);
    StaysReachable(rejected, MRequest(a));
    AskAccepted(a, b);
    assert TakenBy(rejected, MRequest(a), PendingApproval, NeedChanges);
    ReachableIsSound(asked);
    CancelReleases(asked);
    assert TakenBy(asked, MCancel, NeedChanges, PendingApproval);
  }

  lemma AskAccepted(a: string, b: string)
    requires a != b
    ensures Apply(FactoryCase(PendingApproval, 4, TwoDocs(a, b, DocRejected, false)), MRequest(a)).1 == Accepted
  {}

  /** Both documents accepted. */
  function Accepts(a: string, b: string): map<string, Doc> {
    map[a := Doc(License, Factory, DocApproved, false, FIRST),
        b := Doc(IndustrialReg, Factory, DocApproved, false, FIRST)]
  }

  lemma BothAccepted(a: string, b: string)
    requires a != b
    ensures Reachable(FactoryCase(PendingApproval, 4, Accepts(a, b)))
  {
    SubmissionEdge(a, b);
    var one := FactoryCase(PendingApproval, 4, TwoDocs(a, b, DocApproved, false));
    OneIsAccepted(a, b);
    StaysReachable(FactoryCase(PendingApproval, 4, TwoDocs(a, b, DocPending, false)), MJudge(a, DocApproved));
    SecondIsAccepted(a, b);
    StaysReachable(one, MJudge(b, DocApproved));
  }

  lemma SecondIsAccepted(a: string, b: string)
    requires a != b
    ensures Apply(FactoryCase(PendingApproval, 4, TwoDocs(a, b, DocApproved, false)), MJudge(b, DocApproved)).0
         == FactoryCase(PendingApproval, 4, Accepts(a, b))
  {
    var docs := TwoDocs(a, b, DocApproved, false);
    assert docs[b := Cleared(docs[b])] == Accepts(a, b);
  }

  // ---------------------------------------------------------------- decisions

  lemma DecisionEdges(a: string, b: string)
    requires a != b
    ensures Taken(PendingApproval, Active) && Taken(PendingApproval, Rejected)
    ensures Taken(Rejected, Active) && Taken(Rejected, PendingApproval)
    ensures Taken(Active, Blocked) && Taken(Blocked, Active)
  {
    BothAccepted(a, b);
    var s := FactoryCase(PendingApproval, 4, Accepts(a, b));
    FromSubmitted(s);
    var rejected, active := Apply(s, MDecide(Reject)).0, Apply(s, MDecide(Approve)).0;
    StaysReachable(s, MDecide(Reject));
    StaysReachable(s, MDecide(Approve));
    FromRejected(rejected);
    FromActive(active);
  }

  lemma FromSubmitted(s: State)
    requires Reachable(s) && InStatus(s, PendingApproval) && s.hasProfile && Reviewable(s.account.value.role)
    requires AllDocs(s.docs, DocApproved)
    ensures Taken(PendingApproval, Active) && Taken(PendingApproval, Rejected)
    ensures InStatus(Apply(s, MDecide(Reject)).0, Rejected) && Apply(s, MDecide(Reject)).0.docs == s.docs
    ensures InStatus(Apply(s, MDecide(Approve)).0, Active)
    ensures Apply(s, MDecide(Reject)).0.account.value.role == s.account.value.role
    ensures Apply(s, MDecide(Approve)).0.account.value.role == s.account.value.role
  {
    DecisionGates(s);
    assert TakenBy(s, MDecide(Approve), PendingApproval, Active);
    assert TakenBy(s, MDecide(Reject), PendingApproval, Rejected);
  }

  lemma FromRejected(s: State)
    requires Reachable(s) && InStatus(s, Rejected) && Reviewable(s.account.value.role) && AllDocs(s.docs, DocApproved)
    ensures Taken(Rejected, Active) && Taken(Rejected, PendingApproval)
  {
    assert TakenBy(s, MDecide(Approve), Rejected, Active);
    assert TakenBy(s, MReopen, Rejected, PendingApproval);
  }

  lemma FromActive(s: State)
    requires Reachable(s) && InStatus(s, Active) && Reviewable(s.account.value.role)
    ensures Taken(Active, Blocked) && Taken(Blocked, Active)
  {
    assert TakenBy(s, MBlock(true), Active, Blocked);
    StaysReachable(s, MBlock(true));
    assert TakenBy(Apply(s, MBlock(true)).0, MBlock(false), Blocked, Active);
  }

  // ---------------------------------------------------------------- main result

  lemma EveryEdgeIsTaken(from: AccountStatus, to: AccountStatus)
    requires IsEdge(from, to)
    ensures Taken(from, to)
  {
    SignUpEdges();
    SubmissionEdge("", FIRST);
    RequestEdges("", FIRST);
    DecisionEdges("", FIRST);
  }

  lemma NoOtherEdge(s: State, m: Move, from: AccountStatus, to: AccountStatus)
    requires TakenBy(s, m, from, to) && from != to
    ensures IsEdge(from, to)
  {
    ReachableIsSound(s);
    MoveGoesAlongAnEdge(s, m);
  }

  /** The statuses of followed accounts change along exactly these edges. */
  lemma EdgesAreExact(from: AccountStatus, to: AccountStatus)
    requires from != to
    ensures Taken(from, to) <==> IsEdge(from, to)
  {
    if IsEdge(from, to) { EveryEdgeIsTaken(from, to); }
    if Taken(from, to) {
      var s, m :| TakenBy(s, m, from, to);
      NoOtherEdge(s, m, from, to);
    }
  }
}
