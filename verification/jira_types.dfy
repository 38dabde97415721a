/** The parts of an issue-tracker issue that the bot reads, shaped after the
    tracker's REST answers. A field is an `Option` where the code guards it
    with `?.` or where its absence makes a dereference throw; plain fields are
    ones the code copies without looking inside. */
module JiraTypes {
  import opened Common

  /** A node of the tracker's rich-text document format: an optional list of
      children and an optional text leaf. */
  datatype DocNode = DocNode(content: Option<seq<DocNode>>, text: Option<string>)

  datatype UserRef = UserRef(displayName: Option<string>)

  /** `status`, with its `statusCategory` object (only its name is read). */
  datatype StatusField = StatusField(name: string, category: Option<string>)

  datatype LinkedIssue = LinkedIssue(key: string, summary: string)

  /** A link to another issue, seen from either side. */
  datatype IssueLink = IssueLink(outward: Option<LinkedIssue>, inward: Option<LinkedIssue>)

  datatype Subtask = Subtask(key: string, summary: string)

  /** A comment: its author's display name, the text leaves of its body, and
      its creation date. */
  datatype Comment = Comment(author: string, body: seq<Option<string>>, created: string)

  /** `status`, `priority` and `issueType` are `None` when the object is
      missing, in which case reading its `name` throws; `comments` is `None`
      when the issue has no `comment` object. */
  datatype Issue = Issue(
    summary: string,
    status: Option<StatusField>,
    description: Option<DocNode>,
    assignee: Option<UserRef>,
    priority: Option<string>,
    issueType: Option<string>,
    reporter: Option<UserRef>,
    created: string,
    updated: string,
    subtasks: seq<Subtask>,
    issueLinks: seq<IssueLink>,
    comments: Option<seq<Comment>>)

  /** `description?.content?.[0]?.content?.[0]?.text`: the first text leaf of
      the first paragraph, if every step exists. */
  function FirstParagraphText(d: Option<DocNode>): Option<string> {
    if d.None? || d.value.content.None? || |d.value.content.value| == 0 then None
    else
      var para := d.value.content.value[0];
      if para.content.None? || |para.content.value| == 0 then None
      else para.content.value[0].text
  }

  /** `user?.displayName`. */
  function DisplayName(u: Option<UserRef>): Option<string> {
    if u.Some? then u.value.displayName else None
  }
}
