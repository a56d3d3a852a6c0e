/** The auditor of the milestone workflow: an LLM judges whether the active
    milestone is done; a pass completes it, a failure counts a retry, and
    after three retries the milestone is given up. The validating LLM is an
    oracle over the state its prompt is built from. */
module Auditor {
  import opened Wrappers
  import opened Strs
  import opened Workflow
  import ToolParser

  /** The LLM's verdict. */
  datatype ValidationResult = ValidationResult(success: bool, reasoning: string, retryStrategy: Option<string>)

  const MaxRetries := 3

  /** The error a retry records: only a validation that suggests a
      non-empty strategy leaves one. */
  function RetryErrors(milestoneId: string, validation: Option<ValidationResult>): (r: seq<ErrorRecord>)
    ensures |r| <= 1
    ensures r != [] <==> validation.Some? && validation.value.retryStrategy.Some? && validation.value.retryStrategy.value != ""
  {
    if validation.Some? && validation.value.retryStrategy.Some? && validation.value.retryStrategy.value != "" then
      [ErrorRecord(milestoneId, validation.value.reasoning, validation.value.retryStrategy.value)]
    else []
  }

  /** `handle_retry` on the active milestone; the milestone is the one in
      the state's list, so marking it failed shows in the result. */
  function HandleRetry(s: WorkflowState, validation: Option<ValidationResult>): (r: WorkflowState)
    requires HasActiveMilestone(s)
    ensures r.lastVerificationStatus == "failed"
    ensures |s.errors| <= |r.errors| <= |s.errors| + 1 && r.errors[..|s.errors|] == s.errors
    ensures s.retryCount + 1 > MaxRetries <==>
      && r.retryCount == 0
      && r.milestones == s.milestones[s.currentIdx := s.milestones[s.currentIdx].(status := "failed")]
      && r.errors == s.errors + [ErrorRecord(s.milestones[s.currentIdx].id, "Max retries (3) exceeded for milestone",
                                             "Manual intervention required")]
    ensures s.retryCount + 1 <= MaxRetries ==>
      && r.retryCount == s.retryCount + 1 && r.milestones == s.milestones
      && r.errors == s.errors + RetryErrors(s.milestones[s.currentIdx].id, validation)
    ensures r == s.(lastVerificationStatus := r.lastVerificationStatus, retryCount := r.retryCount,
                    milestones := r.milestones, errors := r.errors)
  {
    var retry := s.retryCount + 1;
    var m := s.milestones[s.currentIdx];
    if retry > MaxRetries then
      s.(milestones := s.milestones[s.currentIdx := m.(status := "failed")],
         lastVerificationStatus := "failed",
         retryCount := 0,
         errors := s.errors + [ErrorRecord(m.id, "Max retries (3) exceeded for milestone", "Manual intervention required")])
    else
      s.(lastVerificationStatus := "failed", retryCount := retry, errors := s.errors + RetryErrors(m.id, validation))
  }

  /** A retry count within the limit stays within it. */
  lemma RetryCountStaysBounded(s: WorkflowState, validation: Option<ValidationResult>)
    requires HasActiveMilestone(s) && s.retryCount <= MaxRetries
    ensures HandleRetry(s, validation).retryCount <= MaxRetries
    ensures HasActiveMilestone(HandleRetry(s, validation))
  {
  }

  /** From a fresh count, three failed audits keep the milestone and count
      up to three; the fourth gives it up and resets the count. */
  lemma {:induction false} FourthFailureGivesUp(s: WorkflowState, v1: Option<ValidationResult>, v2: Option<ValidationResult>,
                                                v3: Option<ValidationResult>, v4: Option<ValidationResult>)
    requires HasActiveMilestone(s) && s.retryCount == 0
    ensures var s3 := HandleRetry(HandleRetry(HandleRetry(s, v1), v2), v3);
      && HasActiveMilestone(s3) && s3.retryCount == 3 && s3.milestones == s.milestones
      && var s4 := HandleRetry(s3, v4);
         && s4.retryCount == 0
         && s4.milestones[s.currentIdx].status == "failed"
         && s4.errors[|s4.errors| - 1].errorMessage == "Max retries (3) exceeded for milestone"
  {
    var s1 := HandleRetry(s, v1);
    var s2 := HandleRetry(s1, v2);
    var s3 := HandleRetry(s2, v3);
    assert s1.retryCount == 1 && s1.milestones == s.milestones;
    assert s2.retryCount == 2 && s2.milestones == s.milestones;
    assert s3.retryCount == 3 && s3.milestones == s.milestones;
  }

  /** A record whose call succeeded, and one whose call failed. */
  predicate RecordSucceeded(r: ExecutionRecord) {
    r.success
  }

  predicate RecordFailed(r: ExecutionRecord) {
    !r.success
  }

  /** The records among `history` that succeeded and that failed. */
  function Successes(history: seq<ExecutionRecord>): nat {
    CountIf(history, RecordSucceeded)
  }

  function Failures(history: seq<ExecutionRecord>): nat {
    CountIf(history, RecordFailed)
  }

  /** Every record is counted exactly once. */
  lemma {:induction false} CountsCoverHistory(history: seq<ExecutionRecord>)
    ensures Successes(history) + Failures(history) == |history|
    ensures Failures(history) == 0 <==> !ToolParser.HasExecutionFailures(history)
  {
    if history != [] {
      var init := history[..|history| - 1];
      CountsCoverHistory(init);
      assert forall k :: 0 <= k < |init| ==> init[k] == history[k];
      if !history[|history| - 1].success {
        assert !history[|history| - 1].success;
      }
    }
  }

  /** The summary of one milestone. */
  function MilestoneSummary(m: SubGoal, history: seq<ExecutionRecord>): string {
    "\nMilestone: " + m.description
    + "\nStatus: " + (if m.status == "completed" then "COMPLETED" else "FAILED")
    + "\nTools: " + IntToString(Successes(history)) + " successful, " + IntToString(Failures(history)) + " failed\n"
  }

  /** `update_global_context`: the summary goes after the existing context,
      separated by a line break when there is one. */
  function UpdateGlobalContext(current: string, m: SubGoal, history: seq<ExecutionRecord>): (r: string)
    ensures current <= r
    ensures current == "" ==> r == MilestoneSummary(m, history)
    ensures current != "" ==> r[|current|..] == "\n" + MilestoneSummary(m, history)
  {
    var summary := MilestoneSummary(m, history);
    if current == "" then summary
    else
      var joined := current + ("\n" + summary);
      assert joined[..|current|] == current && joined[|current|..] == "\n" + summary;
      joined
  }

  /** The summary names the status COMPLETED exactly for a completed
      milestone. */
  lemma SummaryStatus(m: SubGoal, history: seq<ExecutionRecord>)
    ensures var head := "\nMilestone: " + m.description + "\nStatus: ";
      && head <= MilestoneSummary(m, history)
      && (head + "COMPLETED" <= MilestoneSummary(m, history) <==> m.status == "completed")
  {
    var head := "\nMilestone: " + m.description + "\nStatus: ";
    var summary := MilestoneSummary(m, history);
    assert summary[..|head|] == head;
    if m.status != "completed" {
      assert summary[|head|] == 'F';
      assert (head + "COMPLETED")[|head|] == 'C';
    }
  }

  /** The auditor `node`. The prompt is built from `s`, so `validate`
      receives the state; its failure is the LLM call's exception. */
  function Audit(s: WorkflowState, validate: WorkflowState -> Result<ValidationResult>): (r: WorkflowState)
    ensures !HasActiveMilestone(s) ==> r == s.(lastVerificationStatus := "failed")
    ensures HasActiveMilestone(s) ==>
      var m := s.milestones[s.currentIdx];
      match validate(s)
      case Success(v) =>
        if v.success then
          r == s.(milestones := s.milestones[s.currentIdx := m.(status := "completed")],
                  lastVerificationStatus := "passed",
                  retryCount := 0,
                  globalContext := UpdateGlobalContext(s.globalContext, m.(status := "completed"),
                                                       ToolParser.MilestoneHistory(s.history, m.id)))
        else r == HandleRetry(s, Some(v))
      case Failure(e) =>
        r == HandleRetry(s.(errors := s.errors + [ErrorRecord(m.id, "Validation LLM call failed: " + e, "Retry with same approach")]), None)
  {
    if !HasActiveMilestone(s) then s.(lastVerificationStatus := "failed")
    else
      var m := s.milestones[s.currentIdx];
      match validate(s)
      case Success(v) =>
        if v.success then
          var done := m.(status := "completed");
          s.(milestones := s.milestones[s.currentIdx := done],
             lastVerificationStatus := "passed",
             retryCount := 0,
             globalContext := UpdateGlobalContext(s.globalContext, done, ToolParser.MilestoneHistory(s.history, m.id)))
        else HandleRetry(s, Some(v))
      case Failure(e) =>
        HandleRetry(s.(errors := s.errors + [ErrorRecord(m.id, "Validation LLM call failed: " + e, "Retry with same approach")]), None)
  }

  /** A failed LLM call adds exactly one error of its own and counts one
      retry, unless that retry exhausts the limit, which adds the give-up
      error after it. */
  lemma LlmFailureCountsOneRetry(s: WorkflowState, validate: WorkflowState -> Result<ValidationResult>)
    requires HasActiveMilestone(s) && validate(s).Failure?
    ensures var r := Audit(s, validate);
      && r.lastVerificationStatus == "failed"
      && |r.errors| == |s.errors| + (if s.retryCount + 1 > MaxRetries then 2 else 1)
      && r.errors[|s.errors|].errorMessage == "Validation LLM call failed: " + validate(s).error
      && (s.retryCount + 1 <= MaxRetries ==> r.retryCount == s.retryCount + 1)
  {
    var m := s.milestones[s.currentIdx];
    var t := s.(errors := s.errors + [ErrorRecord(m.id, "Validation LLM call failed: " + validate(s).error, "Retry with same approach")]);
    var r := HandleRetry(t, None);
    assert r.errors[..|t.errors|] == t.errors;
    assert r.errors[|s.errors|] == t.errors[|s.errors|];
  }

  /** Whatever the LLM says, the audit leaves a verdict the router reads,
      and it passes exactly when the LLM's validation succeeded. */
  lemma AuditVerdict(s: WorkflowState, validate: WorkflowState -> Result<ValidationResult>)
    ensures Audit(s, validate).lastVerificationStatus == "passed" <==>
      HasActiveMilestone(s) && validate(s).Success? && validate(s).value.success
    ensures Audit(s, validate).lastVerificationStatus in {"passed", "failed"}
  {
  }
}
