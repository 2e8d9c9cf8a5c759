/** The values the Jira core works on: an issue key and the issue record
    fetched from the tracker (`JIRADetails`). */
module Issue {
  import opened Chars
  import opened Wrappers

  /** A canonical issue key `PROJECT-NUMBER`. */
  datatype IssueKey = IssueKey(project: string, number: string) {

    /** Canonical: the project part is an upper-case letter followed by
        upper-case letters or digits, the number part is one or more digits. */
    predicate Valid() {
      && |project| >= 1
      && IsUpper(project[0])
      && (forall k :: 1 <= k < |project| ==> IsUpper(project[k]) || IsDigit(project[k]))
      && |number| >= 1
      && (forall k :: 0 <= k < |number| ==> IsDigit(number[k]))
    }

    /** The text form `PROJECT-NUMBER`. */
    function Text(): string {
      project + "-" + number
    }
  }

  datatype IssueType = IssueType(name: string, icon: string)

  datatype Label = Label(name: string, url: string)

  datatype Project = Project(name: string, url: string, key: string)

  /** The issue record (`JIRADetails`) as the tracker client returns it. */
  datatype IssueDetails = IssueDetails(
    key: string,
    url: string,
    issueType: IssueType,
    estimate: Option<int>,
    labels: seq<Label>,
    summary: string,
    project: Project,
    status: string)
}
