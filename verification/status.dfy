/** The workflow-status check (`Jira.isIssueStatusValid`): with validation
    switched off every issue passes; with it on, an issue passes exactly when
    its status is one of the expected statuses, compared case-sensitively. */
module Status {
  import opened Issue

  /** `xs.includes(x)`: a linear scan for an exact match. */
  function Includes(xs: seq<string>, x: string): (found: bool)
    ensures found <==> x in xs
  {
    if xs == [] then false else xs[0] == x || Includes(xs[1..], x)
  }

  /** `isIssueStatusValid(shouldValidate, expectedStatuses, issue)`. */
  function IsIssueStatusValid(shouldValidate: bool, expectedStatuses: seq<string>, issue: IssueDetails): (valid: bool)
    ensures !shouldValidate ==> valid
    ensures shouldValidate ==>
      (valid <==> exists i :: 0 <= i < |expectedStatuses| && expectedStatuses[i] == issue.status)
  {
    if !shouldValidate then true else Includes(expectedStatuses, issue.status)
  }

  /** Only the issue's status matters, not its other fields. */
  lemma OnlyStatusMatters(shouldValidate: bool, expected: seq<string>, a: IssueDetails, b: IssueDetails)
    requires a.status == b.status
    ensures IsIssueStatusValid(shouldValidate, expected, a) == IsIssueStatusValid(shouldValidate, expected, b)
  {
  }

  /** Only the set of expected statuses matters, not their order or repeats. */
  lemma OnlyExpectedSetMatters(shouldValidate: bool, e1: seq<string>, e2: seq<string>, issue: IssueDetails)
    requires forall s :: s in e1 <==> s in e2
    ensures IsIssueStatusValid(shouldValidate, e1, issue) == IsIssueStatusValid(shouldValidate, e2, issue)
  {
  }

  /** Expecting more statuses never turns a valid issue invalid. */
  lemma MoreExpectedStaysValid(shouldValidate: bool, e1: seq<string>, e2: seq<string>, issue: IssueDetails)
    requires forall s :: s in e1 ==> s in e2
    requires IsIssueStatusValid(shouldValidate, e1, issue)
    ensures IsIssueStatusValid(shouldValidate, e2, issue)
  {
  }

  /** The issue record of the `isIssueStatusValid()` tests, with a given status. */
  function TestIssue(status: string): IssueDetails {
    IssueDetails(
      "ABC-123", "url", IssueType("feature", "feature-icon-url"), Wrappers.Some(1),
      [Label("frontend", "frontend-url")], "Story title or summary",
      Project("project", "project-url", "abc"), status)
  }

  /** Test lines 132-146: `Assessment` is rejected and `In Progress`
      accepted when validating against `In Test`, `In Progress`; with
      validation off `Assessment` passes. The comparison is exact, so
      `in progress` is rejected. */
  lemma StatusVectors()
    ensures !IsIssueStatusValid(true, ["In Test", "In Progress"], TestIssue("Assessment"))
    ensures IsIssueStatusValid(true, ["In Test", "In Progress"], TestIssue("In Progress"))
    ensures IsIssueStatusValid(false, ["In Test", "In Progress"], TestIssue("Assessment"))
    ensures !IsIssueStatusValid(true, ["In Test", "In Progress"], TestIssue("in progress"))
  {
    var expected := ["In Test", "In Progress"];
    assert expected[1] == "In Progress";
    assert "Assessment" != "In Test" && "Assessment" != "In Progress";
    assert "in progress" != "In Test" && "in progress" != "In Progress";
  }
}
