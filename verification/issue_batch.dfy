/** Fetching a batch of issues and shaping each into the record handed to the
    language model (`fetchJiraIssuesDataAndFormatForLLM`). The tracker's
    `findIssue` is a parameter; the settle-all join becomes a map in key order,
    since no key's fetch can see another's. */
module IssueBatch {
  import opened Common
  import opened JiraTypes

  const NotFoundError := "Issue not found or inaccessible"

  datatype SubtaskData = SubtaskData(key: string, summary: string, link: string)
  datatype LinkData = LinkData(key: Option<string>, summary: string, link: string)
  datatype CommentData = CommentData(author: string, content: string, date: string)

  datatype IssueData = IssueData(
    summary: string,
    status: string,
    description: string,
    assignee: string,
    priority: string,
    issueType: string,
    reporter: string,
    createdDate: string,
    lastUpdatedDate: string,
    subtasks: seq<SubtaskData>,
    linkedIssues: seq<LinkData>,
    recentComments: Option<seq<CommentData>>)

  /** One entry of the batch: the data of a fetched issue, or the error that
      replaced it; both carry the requested key. */
  datatype IssueRecord = Found(key: string, data: IssueData) | Failed(key: string, error: string)

  /** The batch answer: the `JIRA_ISSUES_NOT_FOUND` sentinel, or the records
      that become the assistant message's JSON payload. */
  datatype BatchReply = NoIssuesFound | IssuesContext(records: seq<IssueRecord>)

  /** `<https://HOST/browse/KEY|KEY>`, with `undefined` for a missing key. */
  function BrowseLink(host: string, key: Option<string>): string {
    "<https://" + host + "/browse/" + Render(key) + "|" + Render(key) + ">"
  }

  /** `link.outwardIssue?.key || link.inwardIssue?.key`. */
  function LinkKey(l: IssueLink): (k: Option<string>)
    ensures l.outward.Some? && l.outward.value.key != "" ==> k == Some(l.outward.value.key)
    ensures (l.outward.None? || l.outward.value.key == "") && l.inward.Some? ==> k == Some(l.inward.value.key)
    ensures (l.outward.None? || l.outward.value.key == "") && l.inward.None? ==> k == None
  {
    if l.outward.Some? && l.outward.value.key != "" then Some(l.outward.value.key)
    else if l.inward.Some? then Some(l.inward.value.key)
    else None
  }

  function LinkSummary(l: IssueLink): string {
    if l.outward.Some? && l.outward.value.summary != "" then l.outward.value.summary
    else if l.inward.Some? && l.inward.value.summary != "" then l.inward.value.summary
    else "No summary"
  }

  function ShapeLink(host: string, l: IssueLink): LinkData {
    LinkData(LinkKey(l), LinkSummary(l), BrowseLink(host, LinkKey(l)))
  }

  function ShapeSubtask(host: string, t: Subtask): SubtaskData {
    SubtaskData(t.key, t.summary, BrowseLink(host, Some(t.key)))
  }

  /** `content.map(c => c.text).join(' ')`: a missing text joins as empty. */
  function JoinTexts(texts: seq<Option<string>>): string {
    Join(Map(texts, (t: Option<string>) => if t.Some? then t.value else ""), " ")
  }

  function ShapeComment(c: Comment): CommentData {
    var joined := JoinTexts(c.body);
    CommentData(c.author, if joined != "" then joined else "No content", c.created)
  }

  /** `comments.slice(-1)`: the last comment, if any. */
  function LastComment(cs: seq<Comment>): (r: seq<Comment>)
    ensures |r| <= 1
    ensures |cs| > 0 ==> r == [cs[|cs| - 1]]
    ensures |cs| == 0 ==> r == []
  {
    if |cs| == 0 then [] else cs[|cs| - 1..]
  }

  /** The success-path record for one issue. Reading `status.name`,
      `priority.name` or `issuetype.name` throws when the object is missing;
      the surrounding `try` turns that into the same error as a failed fetch. */
  function ShapeIssue(host: string, issue: Issue): (r: Result<IssueData>)
    ensures r.Err? <==> issue.status.None? || issue.priority.None? || issue.issueType.None?
    ensures r.Ok? ==> var d := r.value;
      && d.summary == issue.summary
      && d.status == issue.status.value.name
      && d.priority == issue.priority.value
      && d.issueType == issue.issueType.value
      && (Truthy(FirstParagraphText(issue.description)) ==> d.description == FirstParagraphText(issue.description).value)
      && (!Truthy(FirstParagraphText(issue.description)) ==> d.description == "No description")
      && (Truthy(DisplayName(issue.assignee)) ==> d.assignee == DisplayName(issue.assignee).value)
      && (!Truthy(DisplayName(issue.assignee)) ==> d.assignee == "Unassigned")
      && (Truthy(DisplayName(issue.reporter)) ==> d.reporter == DisplayName(issue.reporter).value)
      && (!Truthy(DisplayName(issue.reporter)) ==> d.reporter == "Unknown")
      && d.createdDate == issue.created && d.lastUpdatedDate == issue.updated
      && |d.subtasks| == |issue.subtasks|
      && (forall i :: 0 <= i < |d.subtasks| ==> d.subtasks[i].key == issue.subtasks[i].key)
      && |d.linkedIssues| == |issue.issueLinks|
      && (forall i :: 0 <= i < |d.linkedIssues| ==> d.linkedIssues[i].key == LinkKey(issue.issueLinks[i]))
      && (issue.comments.None? <==> d.recentComments.None?)
      && (issue.comments.Some? ==> |d.recentComments.value| == if |issue.comments.value| == 0 then 0 else 1)
      && (issue.comments.Some? && |issue.comments.value| > 0 ==>
            d.recentComments.value[0].author == issue.comments.value[|issue.comments.value| - 1].author)
  {
    if issue.status.None? || issue.priority.None? || issue.issueType.None? then
      Err("TypeError")
    else
      Ok(IssueData(
        issue.summary,
        issue.status.value.name,
        OrElse(FirstParagraphText(issue.description), "No description"),
        OrElse(DisplayName(issue.assignee), "Unassigned"),
        issue.priority.value,
        issue.issueType.value,
        OrElse(DisplayName(issue.reporter), "Unknown"),
        issue.created,
        issue.updated,
        Map(issue.subtasks, (t: Subtask) => ShapeSubtask(host, t)),
        Map(issue.issueLinks, (l: IssueLink) => ShapeLink(host, l)),
        if issue.comments.None? then None
        else Some(Map(LastComment(issue.comments.value), ShapeComment))))
  }

  /** The record for one requested key: every failure, of the fetch or of the
      shaping, becomes the same error record. */
  function FetchRecord(host: string, key: string, find: string -> Result<Issue>): (r: IssueRecord)
    ensures r.key == key
    ensures r.Failed? ==> r.error == NotFoundError
    ensures r.Found? <==> find(key).Ok? && ShapeIssue(host, find(key).value).Ok?
    ensures r.Found? ==> r.data == ShapeIssue(host, find(key).value).value
  {
    match find(key)
    case Err(_) => Failed(key, NotFoundError)
    case Ok(issue) =>
      match ShapeIssue(host, issue)
      case Err(_) => Failed(key, NotFoundError)
      case Ok(d) => Found(key, d)
  }

  /** `fetchJiraIssuesDataAndFormatForLLM`: the sentinel exactly for an empty
      key list; otherwise one record per key, in key order, none dropped. */
  function FetchIssuesForLLM(keys: seq<string>, host: string, find: string -> Result<Issue>): (r: BatchReply)
    ensures r.NoIssuesFound? <==> |keys| == 0
    ensures r.IssuesContext? ==>
              && |r.records| == |keys|
              && forall i :: 0 <= i < |keys| ==>
                   && r.records[i].key == keys[i]
                   && (r.records[i].Failed? ==> r.records[i].error == NotFoundError)
                   && (r.records[i].Found? <==> find(keys[i]).Ok? && ShapeIssue(host, find(keys[i]).value).Ok?)
                   && (r.records[i].Found? ==> r.records[i].data == ShapeIssue(host, find(keys[i]).value).value)
  {
    if |keys| == 0 then NoIssuesFound
    else IssuesContext(Map(keys, (k: string) => FetchRecord(host, k, find)))
  }

  /** One issue's failure is confined to its own record: two batches that
      share the key at position `k` hold the same record there, whatever the
      other keys are and however their fetches end. */
  lemma RecordsAreIndependent(host: string, find: string -> Result<Issue>, a: seq<string>, b: seq<string>, k: nat)
    requires k < |a| && k < |b| && a[k] == b[k]
    ensures FetchIssuesForLLM(a, host, find).records[k] == FetchIssuesForLLM(b, host, find).records[k]
            == FetchRecord(host, a[k], find)
    ensures FetchIssuesForLLM(a, host, find).records[k].Found? ==>
              FetchIssuesForLLM(a, host, find).records[k].data == ShapeIssue(host, find(a[k]).value).value
  {
  }
}
