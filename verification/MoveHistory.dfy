/**
 * What the accepted moves of a run say of where it has led: each document is what the moves that concern it have made
 * of it, in turn, and every status, confirmation and verdict goes back to the move that alone can bring it about.
 */
module MoveHistory {
  import opened Sequences
  import opened AccountRules
  import opened AccountInvariants
  import opened MoveEffects

  // ---------------------------------------------------------------- the accepted moves of a run

  predicate IsAccepted(before: seq<Move>, m: Move) {
    Apply(Run(NOTHING, before), m).1 == Accepted
  }

  function AcceptedMoves(moves: seq<Move>): seq<Move> {
    if moves == [] then []
    else
      var before, m := moves[..|moves|-1], moves[|moves|-1];
      if IsAccepted(before, m) then AcceptedMoves(before) + [m] else AcceptedMoves(before)
  }

  lemma {:induction false} AcceptedWereMade(moves: seq<Move>, m: Move)
    requires m in AcceptedMoves(moves)
    ensures m in moves
  {
    var before := moves[..|moves|-1];
    if m in AcceptedMoves(before) { AcceptedWereMade(before, m); }
  }

  /** A refused move leaves the run where it was. */
  lemma LastMove(moves: seq<Move>)
    requires moves != []
    ensures var before, m := moves[..|moves|-1], moves[|moves|-1];
      && Run(NOTHING, moves) == Apply(Run(NOTHING, before), m).0
      && (!IsAccepted(before, m) ==> Run(NOTHING, moves) == Run(NOTHING, before))
  {
    var before, m := moves[..|moves|-1], moves[|moves|-1];
    assert before + [m] == moves;
    RunSnoc(NOTHING, before, m);
    RefusedChangesNothing(Run(NOTHING, before), m);
  }

  // ---------------------------------------------------------------- one document

  /** What the accepted moves, taken in turn, make of the document stored under `id`. */
  function Replay(role: Role, id: string, accepted: seq<Move>): Option<Doc> {
    if accepted == [] then None
    else Edited(role, Replay(role, id, accepted[..|accepted|-1]), accepted[|accepted|-1], id)
  }

  lemma ReplaySnoc(role: Role, id: string, accepted: seq<Move>, m: Move)
    ensures Replay(role, id, accepted + [m]) == Edited(role, Replay(role, id, accepted), m, id)
  {
    assert (accepted + [m])[..|accepted|] == accepted;
  }

  /** Nothing is accepted before the sign-up. */
  lemma {:induction false} NothingWithoutAccount(moves: seq<Move>)
    requires Run(NOTHING, moves).account.None?
    ensures AcceptedMoves(moves) == []
  {
    if moves != [] {
      var before, m := moves[..|moves|-1], moves[|moves|-1];
      LastMove(moves);
      EveryReachableState(before);
      if Run(NOTHING, before).account.Some? {
        AnyAccountKeeps(Run(NOTHING, before), m);
      } else {
        NothingWithoutAccount(before);
        OnlySignUp(m);
      }
    }
  }

  lemma OnlySignUp(m: Move)
    ensures Apply(NOTHING, m).1 == Accepted ==> m.MRegister? || m.MRegisterWithGoogle?
    ensures Apply(NOTHING, m).1 == Accepted ==> Apply(NOTHING, m).0.account.Some? && Apply(NOTHING, m).0.docs == map[]
  {}

  /**
   * On every run each document is what the accepted moves make of it one after the other, whatever the status of the
   * account and the other documents were.
   */
  lemma {:induction false} DocumentIsReplayed(moves: seq<Move>, id: string)
    requires Run(NOTHING, moves).account.Some?
    ensures var s := Run(NOTHING, moves);
      Stored(s.docs, id) == Replay(s.account.value.role, id, AcceptedMoves(moves))
  {
    if moves != [] {
      var before, m := moves[..|moves|-1], moves[|moves|-1];
      var s := Run(NOTHING, before);
      LastMove(moves);
      EveryReachableState(before);
      if s.account.None? {
        NothingWithoutAccount(before);
        OnlySignUp(m);
        if IsAccepted(before, m) { ReplaySnoc(Run(NOTHING, moves).account.value.role, id, [], m); }
      } else {
        AnyAccountKeeps(s, m);
        DocumentIsReplayed(before, id);
        if IsAccepted(before, m) {
          DocumentEffect(s, m, id);
          ReplaySnoc(s.account.value.role, id, AcceptedMoves(before), m);
        }
      }
    }
  }

  // ---------------------------------------------------------------- where a document goes back to

  /** The owner's move gives document `id` this file. */
  predicate Gives(m: Move, id: string, file: string) {
    match m
    case MUpload(x, _, f) => x == id && f == file
    case MReplace(x, mine, f) => mine && x == id && f == file
    case MReupload(x, mine, f) => mine && x == id && f == file
    case MUpdateImage(x, mine, f) => mine && x == id && f == file
    case _ => false
  }

  predicate ByOwner(m: Move) {
    match m
    case MReplace(_, mine, _) => mine
    case MReupload(_, mine, _) => mine
    case MUpdateImage(_, mine, _) => mine
    case _ => true
  }

  ghost predicate Uploaded(ms: seq<Move>, id: string, t: FileType) {
    exists i :: 0 <= i < |ms| && ms[i].MUpload? && ms[i].id == id && ms[i].fileType == t
  }

  ghost predicate FileGiven(ms: seq<Move>, id: string, file: string) {
    exists i :: 0 <= i < |ms| && Gives(ms[i], id, file)
  }

  /** What must have been accepted before document `id` could be like this. */
  ghost predicate GoesBack(d: Doc, role: Role, id: string, ms: seq<Move>) {
    && d.ownerType == role
    && Uploaded(ms, id, d.fileType)
    && FileGiven(ms, id, d.file)
    && (d.requested ==> MRequest(id) in ms)
    && (d.status == DocRejected ==> MJudge(id, DocRejected) in ms)
    && (d.status == DocApproved ==> MJudge(id, DocApproved) in ms || MDecide(Approve) in ms)
  }

  lemma UploadedGrows(ms: seq<Move>, m: Move, id: string, t: FileType)
    ensures Uploaded(ms + [m], id, t) <==> Uploaded(ms, id, t) || (m.MUpload? && m.id == id && m.fileType == t)
  {
    assert forall i :: 0 <= i < |ms| ==> (ms + [m])[i] == ms[i];
    assert (ms + [m])[|ms|] == m;
  }

  lemma FileGivenGrows(ms: seq<Move>, m: Move, id: string, file: string)
    ensures FileGiven(ms + [m], id, file) <==> FileGiven(ms, id, file) || Gives(m, id, file)
  {
    assert forall i :: 0 <= i < |ms| ==> (ms + [m])[i] == ms[i];
    assert (ms + [m])[|ms|] == m;
  }

  lemma {:induction false} ReplayGoesBack(role: Role, id: string, ms: seq<Move>)
    requires forall m :: m in ms ==> ByOwner(m) && (m.MJudge? ==> m.verdict != DocPending)
    requires Replay(role, id, ms).Some?
    ensures GoesBack(Replay(role, id, ms).value, role, id, ms)
  {
    var before, m := ms[..|ms|-1], ms[|ms|-1];
    var d := Replay(role, id, ms).value;
    assert ms == before + [m];
    assert m in ms && ByOwner(m);
    UploadedGrows(before, m, id, d.fileType);
    FileGivenGrows(before, m, id, d.file);
    if Replay(role, id, before).Some? { ReplayGoesBack(role, id, before); }
  }

  lemma OwnerAccepted(s: State, m: Move)
    requires Apply(s, m).1 == Accepted
    ensures ByOwner(m)
  {}

  lemma VerdictAccepted(s: State, id: string, verdict: DocStatus)
    requires UpdateMediaStatus(s, id, verdict).1 == Accepted
    ensures verdict != DocPending
  {}

  lemma {:induction false} AcceptedAreProper(moves: seq<Move>)
    ensures forall m :: m in AcceptedMoves(moves) ==> ByOwner(m) && (m.MJudge? ==> m.verdict != DocPending)
  {
    if moves != [] {
      var before, m := moves[..|moves|-1], moves[|moves|-1];
      AcceptedAreProper(before);
      if IsAccepted(before, m) {
        OwnerAccepted(Run(NOTHING, before), m);
        if m.MJudge? { VerdictAccepted(Run(NOTHING, before), m.id, m.verdict); }
      }
    }
  }

  /**
   * On every run a stored document was uploaded with its type, its owner gave it its file, a reviewer asked for it if
   * it is asked for, rejected it if it is rejected, and approved it, or the application, if it is approved.
   */
  lemma DocumentGoesBack(moves: seq<Move>, id: string)
    requires Run(NOTHING, moves).account.Some? && id in Run(NOTHING, moves).docs
    ensures var s := Run(NOTHING, moves); GoesBack(s.docs[id], s.account.value.role, id, AcceptedMoves(moves))
  {
    DocumentIsReplayed(moves, id);
    AcceptedAreProper(moves);
    ReplayGoesBack(Run(NOTHING, moves).account.value.role, id, AcceptedMoves(moves));
  }

  // ---------------------------------------------------------------- where a confirmed address goes back to

  predicate Confirms(m: Move) {
    m == MVerifyOtp(true) || m.MLoginWithGoogle? || m.MRegisterWithGoogle?
  }

  predicate IsGoogle(m: Move) {
    m.MLoginWithGoogle? || m.MRegisterWithGoogle?
  }

  ghost predicate SomeConfirms(ms: seq<Move>) {
    exists i :: 0 <= i < |ms| && Confirms(ms[i])
  }

  ghost predicate SomeGoogle(ms: seq<Move>) {
    exists i :: 0 <= i < |ms| && IsGoogle(ms[i])
  }

  lemma SomeGrow(ms: seq<Move>, m: Move)
    ensures SomeConfirms(ms + [m]) <==> SomeConfirms(ms) || Confirms(m)
    ensures SomeGoogle(ms + [m]) <==> SomeGoogle(ms) || IsGoogle(m)
  {
    assert forall i :: 0 <= i < |ms| ==> (ms + [m])[i] == ms[i];
    assert (ms + [m])[|ms|] == m;
  }

  /** What must have been accepted before an account could have this role and these credentials. */
  ghost predicate SignedUpBy(a: Account, ms: seq<Move>) {
    && (MRegister(a.role, false) in ms || MRegisterWithGoogle(a.role, false) in ms)
    && (a.hasPassword ==> MRegister(a.role, false) in ms)
    && (a.googleLinked ==> SomeGoogle(ms))
    && (a.verified ==> SomeConfirms(ms))
  }

  ghost predicate SameCredentials(s: State, s': State)
    requires s.account.Some?
  {
    && s'.account.Some?
    && s'.account.value == s.account.value.(status := s'.account.value.status)
    && (!WalletEligible(s.account.value.role) ==> s'.wallets == s.wallets)
  }

  lemma ReviewKeepsCredentials(s: State, m: Move)
    requires s.account.Some? && IsReview(m)
    ensures SameCredentials(s, Apply(s, m).0)
  {}

  lemma ApplicantKeepsCredentials(s: State, m: Move)
    requires s.account.Some? && !IsSignIn(m) && !IsReview(m)
    ensures SameCredentials(s, Apply(s, m).0)
  {}

  lemma SignInGoesBack(s: State, m: Move, ms: seq<Move>)
    requires IsSignIn(m) && Apply(s, m).1 == Accepted
    requires s.account.Some? ==> SignedUpBy(s.account.value, ms)
    ensures Apply(s, m).0.account.Some? && SignedUpBy(Apply(s, m).0.account.value, ms + [m])
  {
    SomeGrow(ms, m);
  }

  /**
   * On every run, whoever the account belongs to: it was signed up with its role and a free phone number, it has a
   * password only from that sign-up, a Google identity only from Google, and it is confirmed only by the right code or
   * by Google.
   */
  lemma {:induction false} AccountGoesBack(moves: seq<Move>)
    requires Run(NOTHING, moves).account.Some?
    ensures SignedUpBy(Run(NOTHING, moves).account.value, AcceptedMoves(moves))
  {
    var before, m := moves[..|moves|-1], moves[|moves|-1];
    var s := Run(NOTHING, before);
    LastMove(moves);
    if s.account.Some? { AccountGoesBack(before); }
    if IsAccepted(before, m) {
      EveryReachableState(before);
      SomeGrow(AcceptedMoves(before), m);
      if IsSignIn(m) {
        SignInGoesBack(s, m, AcceptedMoves(before));
      } else if s.account.None? {
        OnlySignUp(m);
      } else if IsReview(m) {
        ReviewKeepsCredentials(s, m);
      } else {
        ApplicantKeepsCredentials(s, m);
      }
    }
  }

  /** In the words of a whole run: nobody is confirmed without the right code or a Google sign-in. */
  lemma VerifiedWasConfirmed(moves: seq<Move>)
    requires Run(NOTHING, moves).account.Some? && Run(NOTHING, moves).account.value.verified
    ensures SomeConfirms(moves)
  {
    AccountGoesBack(moves);
    var i :| 0 <= i < |AcceptedMoves(moves)| && Confirms(AcceptedMoves(moves)[i]);
    AcceptedWereMade(moves, AcceptedMoves(moves)[i]);
  }

  lemma SignInWallets(s: State, m: Move)
    requires IsSignIn(m) && (s.account.None? ==> s == NOTHING)
    requires s.account.Some? && !WalletEligible(s.account.value.role) ==> s.wallets == 0
    ensures var s' := Apply(s, m).0;
      s'.account.Some? && !WalletEligible(s'.account.value.role) ==> s'.wallets == 0
  {}

  /** On every run only the roles that have wallets have one. */
  lemma {:induction false} OnlyEligibleHaveWallets(moves: seq<Move>)
    ensures var s := Run(NOTHING, moves);
      s.account.Some? && !WalletEligible(s.account.value.role) ==> s.wallets == 0
  {
    if moves != [] {
      var before, m := moves[..|moves|-1], moves[|moves|-1];
      var s := Run(NOTHING, before);
      LastMove(moves);
      OnlyEligibleHaveWallets(before);
      EveryReachableState(before);
      if IsSignIn(m) {
        SignInWallets(s, m);
      } else if s.account.None? {
        OnlySignUp(m);
      } else if IsReview(m) {
        ReviewKeepsCredentials(s, m);
      } else {
        ApplicantKeepsCredentials(s, m);
      }
    }
  }

  // ---------------------------------------------------------------- where an application goes back to

  /** What must have been accepted before a followed account could have this status and this progress. */
  ghost predicate AppliedBy(s: State, ms: seq<Move>)
    requires s.account.Some?
  {
    var a := s.account.value;
    && (forall form :: StepsDone(s) > Before(a.role, form) ==> MSubmitForm(form, true) in ms)
    && (a.status == Rejected ==> MDecide(Reject) in ms)
    && (a.status == Blocked ==> MBlock(true) in ms)
    && (Reviewable(a.role) && (a.status == Active || a.status == Blocked) ==> MDecide(Approve) in ms)
  }

  lemma StatusGoesBack(s: State, m: Move, ms: seq<Move>)
    requires Case(s) && Apply(s, m).1 == Accepted && AppliedBy(s, ms)
    ensures Apply(s, m).0.account.Some? && AppliedBy(Apply(s, m).0, ms + [m])
  {
    AccountIsAsDescribed(s, m);
    AcceptedIff(s, m);
    MoveGoesAlongAnEdge(s, m);
    var s', role := Apply(s, m).0, s.account.value.role;
    forall form | StepsDone(s') > Before(role, form) ensures MSubmitForm(form, true) in ms + [m] {
      if StepsDone(s) <= Before(role, form) { assert m == MSubmitForm(form, true); }
    }
  }

  lemma SignUpGoesBack(m: Move)
    requires Apply(NOTHING, m).1 == Accepted && Apply(NOTHING, m).0.account.Some?
    requires Followed(Apply(NOTHING, m).0.account.value.role)
    ensures AppliedBy(Apply(NOTHING, m).0, [m])
  {
    OnlySignUp(m);
  }

  lemma {:induction false} ApplicationGoesBack(moves: seq<Move>)
    requires Reaches(moves)
    ensures AppliedBy(Run(NOTHING, moves), AcceptedMoves(moves))
  {
    var before, m := moves[..|moves|-1], moves[|moves|-1];
    var s := Run(NOTHING, before);
    LastMove(moves);
    EveryReachableState(before);
    if s.account.None? {
      NothingWithoutAccount(before);
      OnlySignUp(m);
      SignUpGoesBack(m);
    } else {
      AnyAccountKeeps(s, m);
      ApplicationGoesBack(before);
      if IsAccepted(before, m) { StatusGoesBack(s, m, AcceptedMoves(before)); }
    }
  }

  /**
   * On every run an applicant who is let in was approved, and had every form of the application accepted; so had one
   * who is under review or rejected.
   */
  lemma LetInWasApproved(moves: seq<Move>, form: Form)
    requires Reaches(moves)
    ensures var a, ms := Run(NOTHING, moves).account.value, AcceptedMoves(moves);
      && (Reviewable(a.role) && (a.status == Active || a.status == Blocked) ==> MDecide(Approve) in ms)
      && (Reviewable(a.role) && a.status != Inactive && a.status != PendingProfile ==> MSubmitForm(form, true) in ms)
  {
    ApplicationGoesBack(moves);
    EveryReachableState(moves);
    var s := Run(NOTHING, moves);
    if Reviewable(s.account.value.role) { StepNames(s.account.value.role); }
  }
}
