/**
 * What the review can do from the states a run can reach: it never gets stuck, and a decision keeps the documents
 * it rests on.
 */
module ReviewProgress {
  import opened AccountRules
  import opened AccountInvariants

  ghost predicate InStatus(s: State, status: AccountStatus) {
    s.account.Some? && s.account.value.status == status
  }

  predicate IsReviewerMove(m: Move) {
    m.MJudge? || m.MRequest? || m.MReopen? || m.MCancel? || m.MDecide?
  }

  /** The reviewer alone makes these moves, and each is accepted. */
  ghost predicate ReviewerRun(s: State, moves: seq<Move>)
    decreases |moves|
  {
    moves == [] ||
    (IsReviewerMove(moves[0]) && Apply(s, moves[0]).1 == Accepted && ReviewerRun(Apply(s, moves[0]).0, moves[1..]))
  }

  ghost function WithVerdict(docs: map<string, Doc>, status: DocStatus): set<string> {
    set id | id in docs && docs[id].status == status
  }

  lemma RunCons(s: State, m: Move, rest: seq<Move>)
    ensures Run(s, [m] + rest) == Run(Apply(s, m).0, rest)
    ensures IsReviewerMove(m) && Apply(s, m).1 == Accepted && ReviewerRun(Apply(s, m).0, rest) ==>
        ReviewerRun(s, [m] + rest)
  {
    assert ([m] + rest)[1..] == rest;
  }

  // ---------------------------------------------------------------- no dead ends

  /** Marking one document acceptable leaves one fewer in the way. */
  lemma JudgeOne(s: State, id: string, from: DocStatus)
    requires Case(s) && InStatus(s, PendingApproval) && id in s.docs && s.docs[id].status == from && from != DocApproved
    ensures var s' := Apply(s, MJudge(id, DocApproved)).0;
      && Apply(s, MJudge(id, DocApproved)).1 == Accepted
      && Case(s') && InStatus(s', PendingApproval) && WithVerdict(s.docs, from) == WithVerdict(s'.docs, from) + {id}
      && id !in WithVerdict(s'.docs, from)
  {
    var s' := Apply(s, MJudge(id, DocApproved)).0;
    JudgeKeeps(s, id, DocApproved);
    assert s'.docs == s.docs[id := Cleared(s.docs[id])];
  }

  lemma DecisionAccepted(s: State, from: DocStatus, decision: Decision)
    requires Case(s) && InStatus(s, PendingApproval) && !AnyDoc(s.docs, from)
    requires from == if decision == Approve then DocRejected else DocPending
    ensures Apply(s, MDecide(decision)).1 == Accepted
    ensures InStatus(Apply(s, MDecide(decision)).0, if decision == Approve then Active else Rejected)
  {}

  /** With nothing in the way the decision goes through. */
  lemma DecideNow(s: State, from: DocStatus, decision: Decision)
    requires Case(s) && InStatus(s, PendingApproval) && !AnyDoc(s.docs, from)
    requires from == if decision == Approve then DocRejected else DocPending
    ensures ReviewerRun(s, [MDecide(decision)])
    ensures InStatus(Run(s, [MDecide(decision)]), if decision == Approve then Active else Rejected)
  {
    var m := MDecide(decision);
    DecisionAccepted(s, from, decision);
    assert ReviewerRun(Apply(s, m).0, []) && Run(Apply(s, m).0, []) == Apply(s, m).0;
    RunCons(s, m, []);
    assert [m] + [] == [m];
  }

  /** Under review, marking documents one by one and then deciding reaches either decision. */
  lemma {:induction false} JudgeAllThenDecide(s: State, from: DocStatus, decision: Decision) returns (moves: seq<Move>)
    requires Case(s) && InStatus(s, PendingApproval)
    requires from == if decision == Approve then DocRejected else DocPending
    ensures |moves| <= |WithVerdict(s.docs, from)| + 1
    ensures ReviewerRun(s, moves)
    ensures InStatus(Run(s, moves), if decision == Approve then Active else Rejected)
    decreases |WithVerdict(s.docs, from)|
  {
    if AnyDoc(s.docs, from) {
      var id :| id in s.docs && s.docs[id].status == from;
      var m := MJudge(id, DocApproved);
      JudgeOne(s, id, from);
      var rest := JudgeAllThenDecide(Apply(s, m).0, from, decision);
      moves := [m] + rest;
      RunCons(s, m, rest);
    } else {
      moves := [MDecide(decision)];
      DecideNow(s, from, decision);
    }
  }

  lemma VerdictsBounded(docs: map<string, Doc>, status: DocStatus)
    ensures |WithVerdict(docs, status)| <= |docs|
  {
    SubsetSize(WithVerdict(docs, status), docs.Keys);
  }

  lemma SubsetSize<T>(a: set<T>, b: set<T>)
    requires a <= b
    ensures |a| <= |b|
  {
    assert b == a + (b - a);
  }

  /** Bring an application that waits or was rejected back under review. */
  lemma BackUnderReview(s: State) returns (m: Move)
    requires Case(s) && (InStatus(s, NeedChanges) || InStatus(s, Rejected))
    ensures IsReviewerMove(m) && Apply(s, m).1 == Accepted
    ensures Case(Apply(s, m).0) && InStatus(Apply(s, m).0, PendingApproval)
    ensures Apply(s, m).0.docs.Keys == s.docs.Keys
  {
    m := if s.account.value.status == Rejected then MReopen else MCancel;
    if m == MReopen { ReopenKeeps(s); } else { CancelKeeps(s); }
  }

  /**
   * From any application under review, waiting or rejected, the reviewer alone reaches either decision within n + 2
   * moves.
   */
  lemma CanAlwaysDecide(s: State, decision: Decision)
    requires Case(s) && (InStatus(s, PendingApproval) || InStatus(s, NeedChanges) || InStatus(s, Rejected))
    ensures exists moves :: (
      && ReviewerRun(s, moves) && |moves| <= |s.docs| + 2
      && InStatus(Run(s, moves), if decision == Approve then Active else Rejected))
  {
    var from := if decision == Approve then DocRejected else DocPending;
    var moves: seq<Move>;
    if InStatus(s, PendingApproval) {
      moves := JudgeAllThenDecide(s, from, decision);
      VerdictsBounded(s.docs, from);
    } else {
      var m := BackUnderReview(s);
      var s' := Apply(s, m).0;
      var rest := JudgeAllThenDecide(s', from, decision);
      VerdictsBounded(s'.docs, from);
      moves := [m] + rest;
      RunCons(s, m, rest);
      assert |s'.docs| == |s'.docs.Keys| && |s.docs| == |s.docs.Keys|;
    }
    assert ReviewerRun(s, moves);
  }

  // ---------------------------------------------------------------- decisions stay put

  /** The documents left are among those there were, and differ at most in their file. */
  ghost predicate OnlyOwnerTouched(docs: map<string, Doc>, docs': map<string, Doc>) {
    && docs'.Keys <= docs.Keys
    && forall id :: id in docs' ==> docs'[id] == docs[id].(file := docs'[id].file)
  }

  /** The owner of an account that has been let in deletes a document or exchanges its file. */
  predicate OwnerTouches(s: State, m: Move) {
    && s.account.Some? && s.account.value.status == Active
    && match m
       case MDeleteImage(id, mine) => mine && id in s.docs
       case MUpdateImage(id, mine, file) => mine && id in s.docs && file != s.docs[id].file
       case _ => false
  }

  predicate IsOwnerMove(m: Move) {
    m.MUpdateImage? || m.MDeleteImage?
  }

  /**
   * Once let in, an account only moves between ACTIVE and BLOCKED, and exactly its owner's changes touch a document.
   */
  lemma ApprovedStep(s: State, m: Move)
    requires Case(s) && (InStatus(s, Active) || InStatus(s, Blocked))
    ensures var s' := Apply(s, m).0;
      && (InStatus(s', Active) || InStatus(s', Blocked))
      && OnlyOwnerTouched(s.docs, s'.docs) && (s'.docs == s.docs <==> !OwnerTouches(s, m))
  {
    if m.MUpdateImage? {
      ApprovedUpdate(s, m.id, m.mine, m.file);
    } else if m.MDeleteImage? {
      ApprovedDelete(s, m.id, m.mine);
    } else {
      ApprovedOther(s, m);
    }
  }

  lemma ApprovedUpdate(s: State, id: string, mine: bool, file: string)
    requires Case(s) && (InStatus(s, Active) || InStatus(s, Blocked))
    ensures var s' := UpdateImage(s, id, mine, file).0;
      && s' == s.(docs := s'.docs)
      && OnlyOwnerTouched(s.docs, s'.docs) && (s'.docs == s.docs <==> !OwnerTouches(s, MUpdateImage(id, mine, file)))
  {
    if OwnerTouches(s, MUpdateImage(id, mine, file)) {
      assert UpdateImage(s, id, mine, file).0.docs[id].file != s.docs[id].file;
    }
  }

  lemma ApprovedDelete(s: State, id: string, mine: bool)
    requires Case(s) && (InStatus(s, Active) || InStatus(s, Blocked))
    ensures var s' := DeleteImage(s, id, mine).0;
      && s' == s.(docs := s'.docs)
      && OnlyOwnerTouched(s.docs, s'.docs) && (s'.docs == s.docs <==> !OwnerTouches(s, MDeleteImage(id, mine)))
  {
    if OwnerTouches(s, MDeleteImage(id, mine)) {
      assert id !in DeleteImage(s, id, mine).0.docs;
    }
  }

  lemma ApprovedOther(s: State, m: Move)
    requires Case(s) && (InStatus(s, Active) || InStatus(s, Blocked)) && !IsOwnerMove(m)
    ensures var s' := Apply(s, m).0; (InStatus(s', Active) || InStatus(s', Blocked)) && s'.docs == s.docs
  {}

  ghost predicate NoOwnerMoves(moves: seq<Move>) {
    forall i :: 0 <= i < |moves| ==> !IsOwnerMove(moves[i])
  }

  /**
   * Once let in, an account only moves between ACTIVE and BLOCKED, and every document it still has is one it was
   * approved with, still approved. Without the owner's own deletions and exchanges the documents never change.
   */
  lemma {:induction false} ApprovalIsFinal(s: State, moves: seq<Move>)
    requires Case(s) && (InStatus(s, Active) || InStatus(s, Blocked))
    ensures var s' := Run(s, moves);
      && (InStatus(s', Active) || InStatus(s', Blocked))
      && OnlyOwnerTouched(s.docs, s'.docs) && AllDocs(s'.docs, DocApproved)
      && (NoOwnerMoves(moves) ==> s'.docs == s.docs)
    decreases |moves|
  {
    if moves != [] {
      var s1 := Apply(s, moves[0]).0;
      ApprovedStep(s, moves[0]);
      MoveKeepsCase(s, moves[0]);
      ApprovalIsFinal(s1, moves[1..]);
    }
  }

  /** A rejected application keeps its documents, all of them judged, until it is re-opened or approved as it stands. */
  lemma {:induction false} RejectionKeepsEvidence(s: State, moves: seq<Move>)
    requires Case(s) && InStatus(s, Rejected)
    requires forall i :: 0 <= i < |moves| ==> moves[i] != MReopen
    ensures var s' := Run(s, moves);
      if InStatus(s', Rejected) then s'.docs == s.docs && !AnyDoc(s'.docs, DocPending)
      else
        && (InStatus(s', Active) || InStatus(s', Blocked)) && AllDocs(s.docs, DocApproved)
        && OnlyOwnerTouched(s.docs, s'.docs) && (NoOwnerMoves(moves) ==> s'.docs == s.docs)
    decreases |moves|
  {
    if moves != [] {
      var s' := Apply(s, moves[0]).0;
      RejectedStep(s, moves[0]);
      MoveKeepsCase(s, moves[0]);
      if InStatus(s', Rejected) {
        RejectionKeepsEvidence(s', moves[1..]);
      } else {
        ApprovalIsFinal(s', moves[1..]);
      }
    }
  }

  lemma RejectedStep(s: State, m: Move)
    requires Case(s) && InStatus(s, Rejected) && m != MReopen
    ensures var s' := Apply(s, m).0;
      && s'.docs == s.docs
      && (InStatus(s', Rejected) || (InStatus(s', Active) && AllDocs(s.docs, DocApproved)))
  {
    if m == MDecide(Approve) && Apply(s, m).1 == Accepted {
      assert PendingApproved(s.docs) == s.docs;
    }
  }

  /** Asking for a document again is refused while the application is rejected, whichever document it is. */
  lemma AskingNeverReopens(s: State, id: string)
    requires Case(s) && InStatus(s, Rejected)
    ensures Apply(s, MRequest(id)) == (s, Refused(if id in s.docs then ReuploadNotReviewable else MediaNotFound))
    ensures Apply(s, MReopen).1 == Accepted && InStatus(Apply(s, MReopen).0, PendingApproval)
  {
    if id in s.docs { assert s.hasProfile; }
  }

  // ---------------------------------------------------------------- an approved document

  /** The document is no longer what it was. */
  ghost predicate Touched(docs: map<string, Doc>, docs': map<string, Doc>, id: string)
    requires id in docs
  {
    id !in docs' || docs'[id] != docs[id]
  }

  /** The two ways an applicant gets at an approved document: while the application is undecided, and once let in. */
  predicate ApplicantTouches(s: State, m: Move, id: string)
    requires s.account.Some? && id in s.docs
  {
    match m
    case MReplace(x, mine, _) => s.account.value.status == PendingApproval && x == id && mine
    case MUpdateImage(x, mine, file) => s.account.value.status == Active && x == id && mine && file != s.docs[id].file
    case MDeleteImage(x, mine) => s.account.value.status == Active && x == id && mine
    case _ => false
  }

  /** Whatever but the reviewer's moves is made, an approved document is touched exactly in these ways. */
  lemma ApprovedDocumentTouchedIff(s: State, m: Move, id: string)
    requires Case(s) && !IsReview(m) && id in s.docs && s.docs[id].status == DocApproved
    ensures Touched(s.docs, Apply(s, m).0.docs, id) <==> ApplicantTouches(s, m, id)
  {
    match m
    case MReplace(x, mine, file) => ApprovedReplaced(s, x, mine, file, id);
    case MUpdateImage(x, mine, file) => ApprovedUpdated(s, x, mine, file, id);
    case MDeleteImage(x, mine) => ApprovedDeleted(s, x, mine, id);
    case MReupload(x, mine, file) => ApprovedNotReuploaded(s, x, mine, file, id);
    case MUpload(x, t, file) => ApprovedNotUploaded(s, x, t, file, id);
    case _ => ApprovedElsewhere(s, m);
  }

  lemma ApprovedReplaced(s: State, x: string, mine: bool, file: string, id: string)
    requires Case(s) && id in s.docs && s.docs[id].status == DocApproved
    ensures Touched(s.docs, ReplaceDocument(s, x, mine, file).0.docs, id)
      <==> ApplicantTouches(s, MReplace(x, mine, file), id)
  {}

  lemma ApprovedUpdated(s: State, x: string, mine: bool, file: string, id: string)
    requires Case(s) && id in s.docs && s.docs[id].status == DocApproved
    ensures Touched(s.docs, UpdateImage(s, x, mine, file).0.docs, id)
      <==> ApplicantTouches(s, MUpdateImage(x, mine, file), id)
  {}

  lemma ApprovedDeleted(s: State, x: string, mine: bool, id: string)
    requires Case(s) && id in s.docs && s.docs[id].status == DocApproved
    ensures Touched(s.docs, DeleteImage(s, x, mine).0.docs, id) <==> ApplicantTouches(s, MDeleteImage(x, mine), id)
  {}

  lemma ApprovedNotReuploaded(s: State, x: string, mine: bool, file: string, id: string)
    requires Case(s) && id in s.docs && s.docs[id].status == DocApproved
    ensures !Touched(s.docs, ReuploadRejectedImage(s, x, mine, file).0.docs, id)
  {}

  lemma ApprovedNotUploaded(s: State, x: string, t: FileType, file: string, id: string)
    requires id in s.docs
    ensures !Touched(s.docs, Apply(s, MUpload(x, t, file)).0.docs, id)
  {
    if x !in s.docs { UploadAddsOne(s, x, t, file); }
  }

  lemma UploadAddsOne(s: State, x: string, t: FileType, file: string)
    requires x !in s.docs
    ensures var docs := UploadImage(s, x, t, file).0.docs; docs == s.docs || (x in docs && docs - {x} == s.docs)
  {
    if UploadImage(s, x, t, file).1 == Accepted {
      var d := Doc(t, s.account.value.role, DocPending, false, file);
      assert s.docs[x := d] - {x} == s.docs;
    }
  }

  lemma ApprovedElsewhere(s: State, m: Move)
    requires s.account.Some? && (IsSignIn(m) || m.MSubmitForm?)
    ensures Apply(s, m).0.docs == s.docs
  {}
}
