/** Opening a review pull request for a submission (lib/github.ts): the
    names of the branch, file, commit and pull request, the pull-request
    description, and the fixed order of repository calls. The repository
    API is an oracle: each call's reply is given in advance. */
module GitHub {
  import opened Common
  import opened CatalogTypes

  const BaseBranch: string := "main"
  const Labels: seq<string> := ["prompt-submission", "needs-review"]
  const DefaultFailure: string := "Failed to create GitHub PR"
  const PreviewLength: nat := 500

  function BranchName(id: string): (r: string)
    ensures StartsWith(r, "submissions/prompt-") && r[19..] == id
  {
    "submissions/prompt-" + id
  }

  function FilePath(id: string): (r: string)
    ensures |r| == |id| + 22
    ensures StartsWith(r, "data/submissions/") && r[17..|r| - 5] == id && r[|r| - 5..] == ".json"
  {
    "data/submissions/" + id + ".json"
  }

  function CommitMessage(title: string): string {
    "Add prompt submission: " + title
  }

  function PullTitle(title: string): string {
    "\U{1F4DD} New Prompt: " + title
  }

  /** The name a format has in the data. */
  function FormatName(f: PromptFormat): string {
    match f
    case General => "general"
    case PromptStudio => "prompt-studio"
    case Mcp => "mcp"
    case SkillFormat => "skill"
  }

  // ---------------------------------------------------------------------
  // The pull-request description

  /** The first 500 characters, then "..." exactly when some were cut. */
  function Preview(content: string): (r: string)
    ensures |content| <= PreviewLength ==> r == content
    ensures |content| > PreviewLength ==> r == content[..PreviewLength] + "..." && |r| == PreviewLength + 3
  {
    if |content| > PreviewLength then content[..PreviewLength] + "..." else content
  }

  /** A preview never loses a short body and always keeps the start of a long one. */
  lemma PreviewKeepsStart(content: string)
    ensures StartsWith(Preview(content), content[..if |content| < PreviewLength then |content| else PreviewLength])
  {
  }

  const Heading: string := "## New Prompt Submission\n\n"
  const PreviewHeading: string := "\n\n---\n\n### Prompt Content Preview\n\n"
  const Checklist: string :=
    "\n\n---\n\n### Review Checklist\n\n"
    + "- [ ] Content is appropriate and follows guidelines\n"
    + "- [ ] No sensitive information included\n"
    + "- [ ] Variables are properly formatted\n"
    + "- [ ] Category and tags are accurate (matches prompt content)\n"
    + "- [ ] Author attribution is correct\n\n---\n\n"
  const NotifiedNote: string := "\n\n_Note: Submitter was notified via email with a link to track this PR._"

  /** The description template, piece by piece, before its surrounding
      white space is trimmed. */
  function DescriptionParts(prompt: Prompt, submitterName: string, submittedAt: string): (r: seq<string>)
    ensures |r| == 10 && r[0] == Heading && r[9] == NotifiedNote
  {
    [ Heading,
      "**Title:** " + prompt.item.title + "\n\n",
      "**Description:** " + prompt.item.description + "\n\n",
      "**Format:** " + FormatName(prompt.format) + "\n\n",
      "**Category:** " + prompt.businessArea + "\n\n",
      "**Submitted by:** " + submitterName + PreviewHeading,
      "```\n" + Preview(prompt.item.content) + "\n```",
      Checklist + "**Submitted at:** " + submittedAt + "\n\n",
      "**File:** `" + FilePath(prompt.item.id) + "`",
      NotifiedNote ]
  }

  /** generatePRDescription; `submittedAt` is the clock reading as ISO
      text. Trimming removes exactly the template's trailing indentation,
      so the text starts with its heading and holds every piece. */
  function GeneratePRDescription(prompt: Prompt, submitterName: string, submittedAt: string): (r: string)
    ensures r == Concat(DescriptionParts(prompt, submitterName, submittedAt))
    ensures StartsWith(r, Heading)
  {
    var parts := DescriptionParts(prompt, submitterName, submittedAt);
    HeadingAndNoteEnds();
    TemplateTrimmed(parts);
    Trim(Concat(parts) + "\n  ")
  }

  lemma HeadingAndNoteEnds()
    ensures |Heading| > 0 && Heading[0] == '#'
    ensures |NotifiedNote| > 0 && NotifiedNote[|NotifiedNote| - 1] == '_'
  {
  }

  /** A template that opens with a "#" and closes on a "_" loses only the
      trailing indentation when trimmed. */
  lemma TemplateTrimmed(parts: seq<string>)
    requires |parts| > 1 && |parts[0]| > 0 && parts[0][0] == '#'
    requires |parts[|parts| - 1]| > 0 && parts[|parts| - 1][|parts[|parts| - 1]| - 1] == '_'
    ensures Trim(Concat(parts) + "\n  ") == Concat(parts)
  {
    var body := Concat(parts);
    assert body[0] == '#';
    ConcatLast(parts);
    TrimTrailingWhite(body, "\n  ");
  }

  /** The description names the title, description, format, business area,
      submitter, content preview and file path. */
  lemma DescriptionMentions(prompt: Prompt, submitterName: string, submittedAt: string)
    ensures var d := GeneratePRDescription(prompt, submitterName, submittedAt);
      && Contains(d, "**Title:** " + prompt.item.title + "\n\n")
      && Contains(d, "**Description:** " + prompt.item.description + "\n\n")
      && Contains(d, "**Format:** " + FormatName(prompt.format) + "\n\n")
      && Contains(d, "**Category:** " + prompt.businessArea + "\n\n")
      && Contains(d, "**Submitted by:** " + submitterName + PreviewHeading)
      && Contains(d, "```\n" + Preview(prompt.item.content) + "\n```")
      && Contains(d, "**File:** `" + FilePath(prompt.item.id) + "`")
  {
    var parts := DescriptionParts(prompt, submitterName, submittedAt);
    ConcatContains(parts, 1);
    ConcatContains(parts, 2);
    ConcatContains(parts, 3);
    ConcatContains(parts, 4);
    ConcatContains(parts, 5);
    ConcatContains(parts, 6);
    ConcatContains(parts, 8);
  }

  // ---------------------------------------------------------------------
  // The repository calls

  /** What a failed call throws: an Error with a message, or anything else. */
  datatype Thrown = ErrorWithMessage(message: string) | NonError

  datatype Reply<T> = Ok(value: T) | Failed(thrown: Thrown)

  datatype PullRequest = PullRequest(htmlUrl: string, number: int)

  /** The replies the repository gives, call by call. */
  datatype RepositoryReplies = RepositoryReplies(
    getRef: Reply<string>,
    createRef: Reply<()>,
    createFile: Reply<()>,
    createPull: Reply<PullRequest>,
    addLabels: Reply<()>)

  datatype ApiCall =
    | GetRef(ref: string)
    | CreateRef(ref: string, sha: string)
    | CreateFile(path: string, message: string, file: Prompt, branch: string)
    | CreatePull(title: string, head: string, base: string, body: string)
    | AddLabels(issueNumber: int, labels: seq<string>)

  /** The five calls of a submission, one by one. */
  function GetRefCall(): ApiCall {
    GetRef("heads/" + BaseBranch)
  }

  function CreateRefCall(prompt: Prompt, sha: string): ApiCall {
    CreateRef("refs/heads/" + BranchName(prompt.item.id), sha)
  }

  function CreateFileCall(prompt: Prompt): ApiCall {
    CreateFile(FilePath(prompt.item.id), CommitMessage(prompt.item.title), prompt, BranchName(prompt.item.id))
  }

  function CreatePullCall(prompt: Prompt, submitterName: string, submittedAt: string): ApiCall {
    CreatePull(PullTitle(prompt.item.title), BranchName(prompt.item.id), BaseBranch,
               GeneratePRDescription(prompt, submitterName, submittedAt))
  }

  function AddLabelsCall(number: int): ApiCall {
    AddLabels(number, Labels)
  }

  /** The five calls of a submission, in order, given the head commit of
      the base branch and the number of the new pull request. */
  function Plan(prompt: Prompt, submitterName: string, submittedAt: string, sha: string, number: int): (r: seq<ApiCall>)
    ensures |r| == 5 && r[0] == GetRef("heads/" + BaseBranch)
    ensures r[1].CreateRef? && r[1].ref == "refs/heads/" + BranchName(prompt.item.id) && r[1].sha == sha
    ensures r[2].CreateFile? && r[2].branch == BranchName(prompt.item.id) && r[2].file == prompt
    ensures r[2].path == FilePath(prompt.item.id) && r[2].message == "Add prompt submission: " + prompt.item.title
    ensures r[3].CreatePull? && r[3].head == BranchName(prompt.item.id) && r[3].base == BaseBranch
    ensures r[4].AddLabels? && r[4].issueNumber == number && r[4].labels == Labels
  {
    [ GetRefCall(), CreateRefCall(prompt, sha), CreateFileCall(prompt),
      CreatePullCall(prompt, submitterName, submittedAt), AddLabelsCall(number) ]
  }

  /** The message of the Error that is rethrown. */
  function Rethrown(t: Thrown): string {
    match t
    case ErrorWithMessage(m) => m
    case NonError => DefaultFailure
  }

  function ShaOf(replies: RepositoryReplies): string {
    if replies.getRef.Ok? then replies.getRef.value else ""
  }

  function NumberOf(replies: RepositoryReplies): int {
    if replies.createPull.Ok? then replies.createPull.value.number else 0
  }

  /** How many calls are made: up to and including the first that fails. */
  function CallsMade(replies: RepositoryReplies): (n: nat)
    ensures 1 <= n <= 5
  {
    if replies.getRef.Failed? then 1
    else if replies.createRef.Failed? then 2
    else if replies.createFile.Failed? then 3
    else if replies.createPull.Failed? then 4
    else 5
  }

  /** The first failure among the replies, if any. */
  function FirstFailure(replies: RepositoryReplies): (r: Option<Thrown>)
    ensures r.None? <==> replies.getRef.Ok? && replies.createRef.Ok? && replies.createFile.Ok?
                         && replies.createPull.Ok? && replies.addLabels.Ok?
  {
    if replies.getRef.Failed? then Some(replies.getRef.thrown)
    else if replies.createRef.Failed? then Some(replies.createRef.thrown)
    else if replies.createFile.Failed? then Some(replies.createFile.thrown)
    else if replies.createPull.Failed? then Some(replies.createPull.thrown)
    else if replies.addLabels.Failed? then Some(replies.addLabels.thrown)
    else None
  }

  datatype Outcome = Created(pr: PullRequest) | Rejected(message: string)

  /** createSubmissionPR: each call is made only after the previous one
      succeeded; the first failure ends the sequence and is rethrown. */
  method CreateSubmissionPR(prompt: Prompt, submitterName: string, submittedAt: string, replies: RepositoryReplies)
    returns (outcome: Outcome, calls: seq<ApiCall>)
    ensures calls == Plan(prompt, submitterName, submittedAt, ShaOf(replies), NumberOf(replies))[..CallsMade(replies)]
    ensures outcome.Created? <==> FirstFailure(replies).None?
    ensures outcome.Created? ==> outcome.pr == replies.createPull.value
    ensures outcome.Rejected? ==> outcome.message == Rethrown(FirstFailure(replies).value)
  {
    ghost var plan := Plan(prompt, submitterName, submittedAt, ShaOf(replies), NumberOf(replies));
    calls := [GetRefCall()];
    assert calls == plan[..1];
    if replies.getRef.Failed? {
      return Rejected(Rethrown(replies.getRef.thrown)), calls;
    }
    var mainSha := replies.getRef.value;
    calls := calls + [CreateRefCall(prompt, mainSha)];
    assert calls == plan[..2];
    if replies.createRef.Failed? {
      return Rejected(Rethrown(replies.createRef.thrown)), calls;
    }
    calls := calls + [CreateFileCall(prompt)];
    assert calls == plan[..3];
    if replies.createFile.Failed? {
      return Rejected(Rethrown(replies.createFile.thrown)), calls;
    }
    calls := calls + [CreatePullCall(prompt, submitterName, submittedAt)];
    assert calls == plan[..4];
    if replies.createPull.Failed? {
      return Rejected(Rethrown(replies.createPull.thrown)), calls;
    }
    var pr := replies.createPull.value;
    calls := calls + [AddLabelsCall(pr.number)];
    assert calls == plan[..5];
    if replies.addLabels.Failed? {
      return Rejected(Rethrown(replies.addLabels.thrown)), calls;
    }
    outcome := Created(pr);
  }
}
