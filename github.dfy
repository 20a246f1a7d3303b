/**
 * The hosting-platform records (go-github) that the core reads and builds.
 * Every pointer field of the library's structs is an `Option`; the library's
 * getters (`GetSHA`, `GetID`, ...) return the zero value for a nil pointer,
 * which `Str` and `Int` reproduce.
 */
module GitHub {
  import opened Wrappers

  datatype User = User(login: Option<string>)

  datatype Repository = Repository(
    name: Option<string>,
    fullName: Option<string>,
    cloneURL: Option<string>,
    owner: Option<User>)

  datatype PullRequestBranch = PullRequestBranch(
    ref: Option<string>,
    sha: Option<string>,
    repo: Option<Repository>)

  datatype PullRequest = PullRequest(
    number: Option<int>,
    base: Option<PullRequestBranch>,
    head: Option<PullRequestBranch>)

  datatype Installation = Installation(id: Option<int>)

  /** A review comment anchored at a position of a file of the pull request. */
  datatype DraftReviewComment = DraftReviewComment(path: string, position: int, body: string)

  /** The review events the core submits. */
  datatype ReviewEvent = Approve | RequestChanges

  datatype PullRequestReviewRequest = PullRequestReviewRequest(
    commitID: string,
    body: string,
    event: ReviewEvent,
    comments: seq<DraftReviewComment>)

  /** A string getter on a possibly nil field. */
  function Str(s: Option<string>): string {
    s.GetOr("")
  }

  /** An integer getter on a possibly nil field. */
  function Int(n: Option<int>): int {
    n.GetOr(0)
  }

  /** `Installation.GetID` on a possibly nil installation. */
  function InstallationID(inst: Option<Installation>): int {
    if inst.Some? then Int(inst.value.id) else 0
  }

  /** `PullRequest.GetNumber` on a possibly nil pull request. */
  function PullRequestNumber(pr: Option<PullRequest>): int {
    if pr.Some? then Int(pr.value.number) else 0
  }

  /** `PullRequest.GetBase` on a possibly nil pull request. */
  function Base(pr: Option<PullRequest>): Option<PullRequestBranch> {
    if pr.Some? then pr.value.base else None
  }

  /** `PullRequest.GetHead` on a possibly nil pull request. */
  function Head(pr: Option<PullRequest>): Option<PullRequestBranch> {
    if pr.Some? then pr.value.head else None
  }
}
