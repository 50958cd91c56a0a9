/** The onboarding step ledger: which steps an account has completed, and which one is next. */
module Onboarding {
  import opened Sequences

  /** The first step that is not completed yet. */
  function NextStep(steps: seq<string>, done: seq<string>): Option<string> {
    if steps == [] then None
    else if steps[0] !in done then Some(steps[0])
    else NextStep(steps[1..], done)
  }

  /** The step to show the account holder; an empty step name reads as none. */
  function CurrentStep(steps: seq<string>, row: Option<seq<string>>): Option<string> {
    if steps == [] then None
    else
      var next := if row.None? then Some(steps[0]) else NextStep(steps, row.value);
      if next == Some("") then None else next
  }

  /** The stored steps after a completion call. */
  function AfterStep(steps: seq<string>, row: Option<seq<string>>, step: string): seq<string> {
    match row
    case None => if steps != [] && step == steps[0] then [step] else []
    case Some(done) => if NextStep(steps, done) == Some(step) then done + [step] else done
  }

  /** The stored progress row of one account, absent until the first completion call. */
  class Progress {
    var row: Option<seq<string>>

    constructor ()
      ensures row == None
    {
      row := None;
    }

    /** Returns the step that was next before the call. */
    method CompleteStep(steps: seq<string>, step: string) returns (next: Option<string>)
      modifies this
      ensures row == Some(AfterStep(steps, old(row), step))
      ensures next == if old(row).None? then (if steps == [] then None else Some(steps[0]))
          else NextStep(steps, old(row).value)
    {
      if row.None? {
        var completed: seq<string> := [];
        if steps != [] && step == steps[0] { completed := completed + [step]; assert completed == [step]; }
        row := Some(completed);
        return if steps == [] then None else Some(steps[0]);
      }
      next := NextStep(steps, row.value);
      if next == Some(step) { row := Some(row.value + [step]); }
    }

    method GetCurrentStep(steps: seq<string>) returns (step: Option<string>)
      ensures step == CurrentStep(steps, row)
    {
      if steps == [] { return None; }
      if row.None? { return if steps[0] == "" then None else Some(steps[0]); }
      step := NextStep(steps, row.value);
      if step == Some("") { step := None; }
    }
  }

  // ---------------------------------------------------------------- any sequence of calls

  /** The row after a sequence of completion calls. */
  function AfterCalls(steps: seq<string>, calls: seq<string>): Option<seq<string>> {
    if calls == [] then None
    else Some(AfterStep(steps, AfterCalls(steps, calls[..|calls|-1]), calls[|calls|-1]))
  }

  function DoneAfter(steps: seq<string>, calls: seq<string>): seq<string> {
    var row := AfterCalls(steps, calls);
    if row.None? then [] else row.value
  }

  lemma {:induction false} NextAfterPrefix(steps: seq<string>, m: nat)
    requires Distinct(steps) && m <= |steps|
    ensures NextStep(steps, steps[..m]) == if m < |steps| then Some(steps[m]) else None
  {
    NextSkips(steps, steps[..m], m);
    if m < |steps| {
      assert steps[m] !in steps[..m];
      assert steps[m..][0] == steps[m];
    }
  }

  lemma {:induction false} NextSkips(steps: seq<string>, done: seq<string>, m: nat)
    requires m <= |steps| && forall i :: 0 <= i < m ==> steps[i] in done
    ensures NextStep(steps, done) == NextStep(steps[m..], done)
  {
    if m == 0 {
      assert steps[0..] == steps;
    } else {
      assert steps[0] in done;
      NextSkips(steps[1..], done, m - 1);
      assert steps[1..][m-1..] == steps[m..];
    }
  }

  lemma StepAdvances(steps: seq<string>, m: nat, step: string)
    requires Distinct(steps) && m <= |steps|
    ensures AfterStep(steps, Some(steps[..m]), step)
         == if m < |steps| && step == steps[m] then steps[..m+1] else steps[..m]
  {
    NextAfterPrefix(steps, m);
    if m < |steps| { assert steps[..m+1] == steps[..m] + [steps[m]]; }
  }

  lemma FirstStepLikeEmptyRow(steps: seq<string>, step: string)
    ensures AfterStep(steps, None, step) == AfterStep(steps, Some([]), step)
  {}

  /** The completed steps are always a prefix of the list, and a call that is not next adds nothing. */
  lemma {:induction false} CompletedIsPrefix(steps: seq<string>, calls: seq<string>)
    requires Distinct(steps)
    ensures |DoneAfter(steps, calls)| <= |steps|
    ensures DoneAfter(steps, calls) == steps[..|DoneAfter(steps, calls)|]
  {
    if calls != [] {
      var init, c := calls[..|calls|-1], calls[|calls|-1];
      CompletedIsPrefix(steps, init);
      FirstStepLikeEmptyRow(steps, c);
      StepAdvances(steps, |DoneAfter(steps, init)|, c);
    }
  }

  /** A call completes a step exactly when it names the next one. */
  lemma CallCompletesIffNext(steps: seq<string>, calls: seq<string>, step: string)
    requires Distinct(steps)
    ensures var m := |DoneAfter(steps, calls)|;
      && m <= |steps|
      && DoneAfter(steps, calls + [step]) == if m < |steps| && step == steps[m] then steps[..m+1]
          else DoneAfter(steps, calls)
  {
    CompletedIsPrefix(steps, calls);
    assert (calls + [step])[..|calls|] == calls;
    FirstStepLikeEmptyRow(steps, step);
    StepAdvances(steps, |DoneAfter(steps, calls)|, step);
  }

  /** There is no current step exactly when all are done, or the next one has the empty name. */
  lemma CurrentStepNoneIff(steps: seq<string>, calls: seq<string>)
    requires Distinct(steps)
    ensures var m := |DoneAfter(steps, calls)|;
      && m <= |steps|
      && (CurrentStep(steps, AfterCalls(steps, calls)) == None <==> m == |steps| || steps[m] == "")
      && (m < |steps| && steps[m] != "" ==> CurrentStep(steps, AfterCalls(steps, calls)) == Some(steps[m]))
  {
    CompletedIsPrefix(steps, calls);
    NextAfterPrefix(steps, |DoneAfter(steps, calls)|);
  }

  // ---------------------------------------------------------------- how far a sequence of calls gets

  /** `a` occurs in `b` in order, not necessarily contiguously. */
  ghost predicate Subsequence(a: seq<string>, b: seq<string>)
    decreases |b|
  {
    if a == [] then true
    else if b == [] then false
    else if a[|a|-1] == b[|b|-1] then Subsequence(a[..|a|-1], b[..|b|-1])
    else Subsequence(a, b[..|b|-1])
  }

  lemma {:induction false} SubsequenceShorter(a: seq<string>, b: seq<string>)
    requires Subsequence(a, b) && a != []
    ensures Subsequence(a[..|a|-1], b)
    decreases |b|
  {
    var d := b[..|b|-1];
    var init := a[..|a|-1];
    if a[|a|-1] == b[|b|-1] {
      if init != [] {
        SubsequenceShorter(init, d);
        SubsequenceLonger(init, d, b[|b|-1]);
        assert b == d + [b[|b|-1]];
      }
    } else {
      SubsequenceShorter(a, d);
      if init != [] { SubsequenceShorter(init, d); }
      SubsequenceLonger(init, d, b[|b|-1]);
      assert b == d + [b[|b|-1]];
    }
  }

  lemma SubsequenceLonger(a: seq<string>, b: seq<string>, c: string)
    requires Subsequence(a, b) && (a == [] || Subsequence(a[..|a|-1], b))
    ensures Subsequence(a, b + [c])
  {
    assert (b + [c])[..|b|] == b;
  }

  /** `m` steps is as far as these calls get in order. */
  ghost predicate GetsTo(steps: seq<string>, calls: seq<string>, m: nat)
    requires m <= |steps|
  {
    Subsequence(steps[..m], calls) && (m < |steps| ==> !Subsequence(steps[..m+1], calls))
  }

  lemma NextCallAdvances(steps: seq<string>, calls: seq<string>, m: nat)
    requires m < |steps| && GetsTo(steps, calls, m)
    ensures GetsTo(steps, calls + [steps[m]], m + 1)
  {
    assert (calls + [steps[m]])[..|calls|] == calls;
    assert steps[..m+1][..m] == steps[..m];
    if m + 1 < |steps| {
      assert steps[..m+2][..m+1] == steps[..m+1];
      if Subsequence(steps[..m+2], calls) { SubsequenceShorter(steps[..m+2], calls); }
    }
  }

  lemma OtherCallStays(steps: seq<string>, calls: seq<string>, m: nat, c: string)
    requires m <= |steps| && GetsTo(steps, calls, m) && (m < |steps| ==> c != steps[m])
    ensures GetsTo(steps, calls + [c], m)
  {
    assert (calls + [c])[..|calls|] == calls;
    if m > 0 { SubsequenceShorter(steps[..m], calls); }
    SubsequenceLonger(steps[..m], calls, c);
  }

  /** The calls complete exactly the longest prefix of the list that occurs among them in order. */
  lemma {:induction false} CompletedIsLongestInOrder(steps: seq<string>, calls: seq<string>)
    requires Distinct(steps)
    ensures var m := |DoneAfter(steps, calls)|;
      m <= |steps| && DoneAfter(steps, calls) == steps[..m] && GetsTo(steps, calls, m)
  {
    if calls != [] {
      var init, c := calls[..|calls|-1], calls[|calls|-1];
      var m := |DoneAfter(steps, init)|;
      CompletedIsLongestInOrder(steps, init);
      assert calls == init + [c];
      CallCompletesIffNext(steps, init, c);
      if m < |steps| && c == steps[m] {
        NextCallAdvances(steps, init, m);
      } else {
        OtherCallStays(steps, init, m, c);
      }
    }
  }
}
