/** The issues feed (`useDatabaseIssues`): its payload and derived views. */
module IssuesFeed {
  import opened Seqs

  const Fallback := "Failed to fetch database issues"

  datatype Issue = Issue(id: string, severity: string, message: string, timestamp: string)

  function SeverityOf(issue: Issue): string
  {
    issue.severity
  }

  /** `issue => issue.severity === severity`. */
  function SeverityIs(severity: string): Issue -> bool
  {
    (issue: Issue) => issue.severity == severity
  }

  /** `getIssueCountBySeverity(severity)`; never more than `totalIssueCount`. */
  function IssueCountBySeverity(issues: seq<Issue>, severity: string): (n: nat)
    ensures n <= TotalIssueCount(issues)
  {
    |Filter(issues, SeverityIs(severity))|
  }

  /** `totalIssueCount`: the number of issues held (0 for the initial `[]`). */
  function TotalIssueCount(issues: seq<Issue>): nat
  {
    |issues|
  }

  /** `hasCriticalIssues()`: some issue has severity exactly `'error'`. */
  predicate HasCriticalIssues(issues: seq<Issue>)
  {
    exists k :: 0 <= k < |issues| && issues[k].severity == "error"
  }

  /** The count for a severity is how often that exact severity occurs among
      the issues' severities. */
  lemma CountIsMultiplicity(issues: seq<Issue>, severity: string)
    ensures IssueCountBySeverity(issues, severity) == multiset(MapSeq(issues, SeverityOf))[severity]
  {
    FilterCountIsMultiplicity(issues, SeverityIs(severity), SeverityOf, severity);
  }

  /** There are critical issues exactly when the `'error'` count is positive. */
  lemma CriticalIffErrorCount(issues: seq<Issue>)
    ensures HasCriticalIssues(issues) <==> IssueCountBySeverity(issues, "error") > 0
  {
    var errors := Filter(issues, SeverityIs("error"));
    FilterMembers(issues, SeverityIs("error"));
    if HasCriticalIssues(issues) {
      var k :| 0 <= k < |issues| && issues[k].severity == "error";
      assert issues[k] in errors;
    }
    if |errors| > 0 {
      assert errors[0] in issues && errors[0].severity == "error";
      var k :| 0 <= k < |issues| && issues[k] == errors[0];
    }
  }
}
