/**
 * How requested documents are answered or withdrawn: the account waits for the last answer, and cancelling withdraws
 * the question but not the finding.
 */
module ReuploadRequests {
  import opened Sequences
  import opened AccountRules
  import opened AccountInvariants
  import opened ReviewProgress
  import MoveEffects

  // ---------------------------------------------------------------- requests

  ghost function AskedFor(docs: map<string, Doc>): set<string> {
    set id | id in docs && docs[id].requested
  }

  /** One replacement for each listed document, with these files. */
  function Answers(ids: seq<string>, files: string -> string): (r: seq<Move>)
    ensures |r| == |ids| && forall i :: 0 <= i < |ids| ==> r[i] == MReupload(ids[i], true, files(ids[i]))
  {
    seq(|ids|, i requires 0 <= i < |ids| => MReupload(ids[i], true, files(ids[i])))
  }

  ghost function Listed(ids: seq<string>): set<string> {
    set id | id in ids
  }

  /** The documents after those in `ids` have been replaced. */
  ghost function Answered(docs: map<string, Doc>, ids: set<string>, files: string -> string): map<string, Doc>
  {
    map id | id in docs :: if id in ids then Renewed(docs[id], files(id)) else docs[id]
  }

  /** One answer closes one request and releases the account only if it was the last. */
  lemma AnswerOne(s: State, id: string, file: string)
    requires Case(s) && InStatus(s, NeedChanges) && id in AskedFor(s.docs)
    ensures var s' := Apply(s, MReupload(id, true, file)).0;
      && Apply(s, MReupload(id, true, file)).1 == Accepted && Case(s')
      && s'.docs == s.docs[id := Renewed(s.docs[id], file)]
      && AskedFor(s'.docs) == AskedFor(s.docs) - {id}
      && InStatus(s', if AskedFor(s'.docs) == {} then PendingApproval else NeedChanges)
  {
    ReuploadKeeps(s, id, true, file);
    var s' := Apply(s, MReupload(id, true, file)).0;
    assert AskedFor(s'.docs) == AskedFor(s.docs) - {id};
    OutstandingIffAskedFor(s'.docs);
  }

  /** Asking for one document adds that one to what is asked for. */
  lemma AskOne(s: State, id: string)
    requires Case(s) && RequestReupload(s, id).1 == Accepted
    ensures id !in AskedFor(s.docs)
    ensures AskedFor(RequestReupload(s, id).0.docs) == AskedFor(s.docs) + {id}
  {
    MoveEffects.RequestAsksForOne(s, id);
    var docs := RequestReupload(s, id).0.docs;
    forall x ensures x in AskedFor(docs) <==> x in AskedFor(s.docs) || x == id {
      assert MoveEffects.Stored(docs, x)
          == if x == id then Some(s.docs[id].(requested := true)) else MoveEffects.Stored(s.docs, x);
    }
  }

  lemma OutstandingIffAskedFor(docs: map<string, Doc>)
    ensures Outstanding(docs) <==> AskedFor(docs) != {}
  {
    assert forall id :: id in AskedFor(docs) <==> id in docs && docs[id].requested;
  }

  lemma AnsweredStep(docs: map<string, Doc>, id: string, rest: set<string>, files: string -> string)
    requires id in docs && id !in rest
    ensures Answered(docs[id := Renewed(docs[id], files(id))], rest, files) == Answered(docs, {id} + rest, files)
  {}

  /** The account waits exactly while something is asked for. */
  ghost predicate Released(s: State) {
    InStatus(s, if AskedFor(s.docs) == {} then PendingApproval else NeedChanges)
  }

  /** `s'` is `s` with the documents in `ids` replaced. */
  ghost predicate HasAnswered(s: State, ids: set<string>, files: string -> string, s': State) {
    s'.docs == Answered(s.docs, ids, files) && AskedFor(s'.docs) == AskedFor(s.docs) - ids && Released(s')
  }

  lemma NothingAnswered(s: State, files: string -> string)
    requires Released(s)
    ensures HasAnswered(s, {}, files, s)
  {
    assert AskedFor(s.docs) - {} == AskedFor(s.docs);
    assert Answered(s.docs, {}, files) == s.docs;
  }

  lemma OneMoreAnswer(s: State, s1: State, id: string, rest: set<string>, files: string -> string, s': State)
    requires id in s.docs && id !in rest
    requires s1.docs == s.docs[id := Renewed(s.docs[id], files(id))]
    requires AskedFor(s1.docs) == AskedFor(s.docs) - {id} && HasAnswered(s1, rest, files, s')
    ensures HasAnswered(s, {id} + rest, files, s')
  {
    AnsweredStep(s.docs, id, rest, files);
    assert AskedFor(s.docs) - ({id} + rest) == AskedFor(s1.docs) - rest;
  }

  lemma FirstAnswer(s: State, ids: seq<string>, files: string -> string) returns (s1: State)
    requires Case(s) && Released(s) && ids != [] && ids[0] in AskedFor(s.docs)
    ensures Case(s1) && Released(s1) && s1.docs == s.docs[ids[0] := Renewed(s.docs[ids[0]], files(ids[0]))]
    ensures AskedFor(s1.docs) == AskedFor(s.docs) - {ids[0]}
    ensures Run(s, Answers(ids, files)) == Run(s1, Answers(ids[1..], files))
  {
    s1 := Apply(s, MReupload(ids[0], true, files(ids[0]))).0;
    AnswerOne(s, ids[0], files(ids[0]));
    assert Answers(ids, files)[1..] == Answers(ids[1..], files);
  }

  lemma {:induction false} AnswerMany(s: State, ids: seq<string>, files: string -> string)
    requires Case(s) && Released(s) && Distinct(ids) && Listed(ids) <= AskedFor(s.docs)
    ensures HasAnswered(s, Listed(ids), files, Run(s, Answers(ids, files)))
    decreases |ids|
  {
    if ids == [] {
      assert Listed(ids) == {};
      NothingAnswered(s, files);
    } else {
      var rest := ids[1..];
      ListedTail(ids);
      var s1 := FirstAnswer(s, ids, files);
      AnswerMany(s1, rest, files);
      OneMoreAnswer(s, s1, ids[0], Listed(rest), files, Run(s1, Answers(rest, files)));
    }
  }

  lemma ListedTail(ids: seq<string>)
    requires ids != [] && Distinct(ids)
    ensures Listed(ids) == {ids[0]} + Listed(ids[1..]) && ids[0] !in Listed(ids[1..])
    ensures Distinct(ids[1..])
  {
    assert ids == [ids[0]] + ids[1..];
  }

  lemma {:induction false} ListedCount(ids: seq<string>)
    requires Distinct(ids)
    ensures |Listed(ids)| == |ids|
  {
    if ids != [] {
      ListedTail(ids);
      ListedCount(ids[1..]);
    }
  }

  /**
   * However the applicant orders the replacements of what is asked for, the account waits until the last one and
   * is then back under review; each replaced document is unread again and the others are as they were.
   */
  lemma WaitsForTheLastAnswer(s: State, ids: seq<string>, files: string -> string)
    requires Case(s) && InStatus(s, NeedChanges) && Distinct(ids) && Listed(ids) <= AskedFor(s.docs)
    ensures var s' := Run(s, Answers(ids, files));
      && s'.docs == Answered(s.docs, Listed(ids), files)
      && (InStatus(s', NeedChanges) <==> |ids| < |AskedFor(s.docs)|)
      && (InStatus(s', PendingApproval) <==> |ids| == |AskedFor(s.docs)|)
  {
    OutstandingIffAskedFor(s.docs);
    AnswerMany(s, ids, files);
    ListedCount(ids);
    AllListedIff(Listed(ids), AskedFor(s.docs));
  }

  lemma AllListedIff<T>(part: set<T>, all: set<T>)
    requires part <= all
    ensures |part| <= |all| && (all - part == {} <==> |part| == |all|)
  {
    assert all == part + (all - part);
    assert |all| == |part| + |all - part|;
  }

  /**
   * Cancelling withdraws every request, changes no verdict and ends back under review. Approval is then refused
   * over the rejected document; rejection goes through exactly when no document is unread.
   */
  lemma CancelWithdrawsTheQuestion(s: State)
    requires Case(s) && InStatus(s, NeedChanges)
    ensures Apply(s, MCancel).1 == Accepted
    ensures var s' := Apply(s, MCancel).0;
      && InStatus(s', PendingApproval) && AskedFor(s'.docs) == {}
      && s'.docs.Keys == s.docs.Keys && (forall id :: id in s.docs ==> s'.docs[id].status == s.docs[id].status)
      && Apply(s', MDecide(Approve)).1 == Refused(ApprovalBlockedByRejectedDocument)
      && (Apply(s', MDecide(Reject)).1 == Accepted <==> !AnyDoc(s.docs, DocPending))
  {
    var s' := Apply(s, MCancel).0;
    CancelReleases(s);
    SameVerdicts(s.docs, s'.docs, DocPending);
    SameVerdicts(s.docs, s'.docs, DocRejected);
    var id :| id in s.docs && s.docs[id].requested;
    assert s.docs[id].status == DocRejected;
    DecisionGates(s');
  }

  lemma CancelReleases(s: State)
    requires Case(s) && InStatus(s, NeedChanges)
    ensures Apply(s, MCancel) == (WithStatus(s.(docs := Withdrawn(s.docs)), PendingApproval), Accepted)
    ensures s.hasProfile && Reviewable(s.account.value.role) && AskedFor(Withdrawn(s.docs)) == {}
  {
    OutstandingIffAskedFor(Withdrawn(s.docs));
  }

  /** A submitted application: a rejected document bars approval, an unread one bars rejection, nothing else does. */
  lemma DecisionGates(s: State)
    requires InStatus(s, PendingApproval) && s.hasProfile && Reviewable(s.account.value.role)
    ensures Apply(s, MDecide(Approve)).1 == if AnyDoc(s.docs, DocRejected) then
        Refused(ApprovalBlockedByRejectedDocument) else Accepted
    ensures Apply(s, MDecide(Reject)).1 == if AnyDoc(s.docs, DocPending) then
        Refused(RejectionNeedsEveryDocumentJudged) else Accepted
  {}

  lemma SameVerdicts(docs: map<string, Doc>, docs': map<string, Doc>, status: DocStatus)
    requires docs'.Keys == docs.Keys && forall id :: id in docs ==> docs'[id].status == docs[id].status
    ensures AnyDoc(docs', status) <==> AnyDoc(docs, status)
  {
    if AnyDoc(docs, status) {
      var id :| id in docs && docs[id].status == status;
      assert docs'[id].status == status;
    }
  }
}
