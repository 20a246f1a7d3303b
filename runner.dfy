/**
 * runner.go: validation of the pull-request metadata, the owner/repository
 * split, and the assembly of the review request from the analyzer's issues.
 * Cloning, the patch download, the analyzer run and the review submission are
 * I/O and are not modelled; the issues arrive as an input and the review
 * request is the output.
 */
module Runner {
  import opened Wrappers
  import opened GitHub
  import Fmt
  import Linter

  // ---------------------------------------------------------------- branch metadata

  datatype BranchMeta = BranchMeta(
    ownerName: string,
    repoName: string,
    fullName: string,
    cloneURL: string,
    sha: string,
    ref: string)

  /** Go's zero value of `BranchMeta`. */
  const EmptyBranchMeta := BranchMeta("", "", "", "", "", "")

  datatype MetaData = MetaData(base: BranchMeta, head: BranchMeta, pullRequestNumber: int, installationID: int)

  const EmptyMetaData := MetaData(EmptyBranchMeta, EmptyBranchMeta, 0, 0)

  /** The items `getBranchMeta` requires, in the order it checks them. */
  datatype BranchError = NoSHA | NoRef | NoRepo | NoRepoName | NoFullName | NoCloneURL | NoOwner | NoLogin

  function BranchErrorRank(e: BranchError): nat {
    match e
    case NoSHA => 0
    case NoRef => 1
    case NoRepo => 2
    case NoRepoName => 3
    case NoFullName => 4
    case NoCloneURL => 5
    case NoOwner => 6
    case NoLogin => 7
  }

  /** Whether the item `e` names is nil or empty in `b`, judged on its own. */
  predicate Missing(b: PullRequestBranch, e: BranchError) {
    match e
    case NoSHA => Str(b.sha) == ""
    case NoRef => Str(b.ref) == ""
    case NoRepo => b.repo.None?
    case NoRepoName => b.repo.Some? && Str(b.repo.value.name) == ""
    case NoFullName => b.repo.Some? && Str(b.repo.value.fullName) == ""
    case NoCloneURL => b.repo.Some? && Str(b.repo.value.cloneURL) == ""
    case NoOwner => b.repo.Some? && b.repo.value.owner.None?
    case NoLogin => b.repo.Some? && b.repo.value.owner.Some? && Str(b.repo.value.owner.value.login) == ""
  }

  /**
   * `getBranchMeta`: fails exactly when some required item is missing, and then
   * reports the first missing one; on success copies the branch's fields.
   */
  function GetBranchMeta(b: PullRequestBranch): (r: Result<BranchMeta, BranchError>)
    ensures r.Failure? ==>
      Missing(b, r.error) &&
      forall e :: BranchErrorRank(e) < BranchErrorRank(r.error) ==> !Missing(b, e)
    ensures r.Success? ==> forall e :: !Missing(b, e)
    ensures r.Success? ==>
      && b.repo.Some? && b.repo.value.owner.Some?
      && r.value.ownerName == Str(b.repo.value.owner.value.login) != ""
      && r.value.repoName == Str(b.repo.value.name) != ""
      && r.value.fullName == Str(b.repo.value.fullName) != ""
      && r.value.cloneURL == Str(b.repo.value.cloneURL) != ""
      && r.value.ref == Str(b.ref) != ""
      && r.value.sha == Str(b.sha) != ""
  {
    var sha := Str(b.sha);
    if sha == "" then Failure(NoSHA) else
    var ref := Str(b.ref);
    if ref == "" then Failure(NoRef) else
    if b.repo.None? then Failure(NoRepo) else
    var repo := b.repo.value;
    var name := Str(repo.name);
    if name == "" then Failure(NoRepoName) else
    var fullName := Str(repo.fullName);
    if fullName == "" then Failure(NoFullName) else
    var cloneURL := Str(repo.cloneURL);
    if cloneURL == "" then Failure(NoCloneURL) else
    if repo.owner.None? then Failure(NoOwner) else
    var login := Str(repo.owner.value.login);
    if login == "" then Failure(NoLogin) else
    Success(BranchMeta(login, name, fullName, cloneURL, sha, ref))
  }

  /** What `getBranchMeta` leaves in the field it is assigned to: the zero value on failure. */
  function BranchMetaOrZero(b: PullRequestBranch): BranchMeta {
    var r := GetBranchMeta(b);
    if r.Success? then r.value else EmptyBranchMeta
  }

  // ---------------------------------------------------------------- pull-request metadata

  /** The failures of `getMeta`, in the order it meets them. */
  datatype MetaError =
    | NoInstallationID
    | NoPullRequestNumber
    | NoBase
    | BaseMetaFailed(cause: BranchError)
    | NoHead
    | HeadMetaFailed(cause: BranchError)

  function MetaErrorRank(e: MetaError): nat {
    match e
    case NoInstallationID => 0
    case NoPullRequestNumber => 1
    case NoBase => 2
    case BaseMetaFailed(_) => 3
    case NoHead => 4
    case HeadMetaFailed(_) => 5
  }

  /** Whether the check with rank `k` fails, judged on its own. */
  predicate MetaCheckFails(inst: Option<Installation>, pr: Option<PullRequest>, k: nat) {
    if k == 0 then InstallationID(inst) == 0
    else if k == 1 then PullRequestNumber(pr) == 0
    else if k == 2 then Base(pr).None?
    else if k == 3 then Base(pr).Some? && GetBranchMeta(Base(pr).value).Failure?
    else if k == 4 then Head(pr).None?
    else if k == 5 then Head(pr).Some? && GetBranchMeta(Head(pr).value).Failure?
    else false
  }

  /**
   * The outcome of `getMeta`: the first failing check, with the branch error
   * it wraps, or the collected metadata.
   */
  function MetaFor(inst: Option<Installation>, pr: Option<PullRequest>): (r: Result<MetaData, MetaError>)
    ensures r.Failure? ==>
      && MetaCheckFails(inst, pr, MetaErrorRank(r.error))
      && (forall k :: 0 <= k < MetaErrorRank(r.error) ==> !MetaCheckFails(inst, pr, k))
      && (r.error.BaseMetaFailed? ==> Base(pr).Some? && GetBranchMeta(Base(pr).value) == Failure(r.error.cause))
      && (r.error.HeadMetaFailed? ==> Head(pr).Some? && GetBranchMeta(Head(pr).value) == Failure(r.error.cause))
    ensures r.Success? ==> forall k :: 0 <= k <= 5 ==> !MetaCheckFails(inst, pr, k)
    ensures r.Success? ==>
      && r.value.installationID == InstallationID(inst) != 0
      && r.value.pullRequestNumber == PullRequestNumber(pr) != 0
      && Base(pr).Some? && Success(r.value.base) == GetBranchMeta(Base(pr).value)
      && Head(pr).Some? && Success(r.value.head) == GetBranchMeta(Head(pr).value)
  {
    var id := InstallationID(inst);
    if id == 0 then Failure(NoInstallationID) else
    var number := PullRequestNumber(pr);
    if number == 0 then Failure(NoPullRequestNumber) else
    if Base(pr).None? then Failure(NoBase) else
    var base := GetBranchMeta(Base(pr).value);
    if base.Failure? then Failure(BaseMetaFailed(base.error)) else
    if Head(pr).None? then Failure(NoHead) else
    var head := GetBranchMeta(Head(pr).value);
    if head.Failure? then Failure(HeadMetaFailed(head.error)) else
    Success(MetaData(base.value, head.value, number, id))
  }

  /** Whether `getMeta` gets as far as the check of rank `k` before it returns. */
  predicate Reaches(r: Result<MetaData, MetaError>, k: nat) {
    r.Success? || MetaErrorRank(r.error) >= k
  }

  /** The runner's state that `getMeta` fills in. */
  class Runner {
    var installation: Option<Installation>
    var pullRequest: Option<PullRequest>
    var meta: MetaData

    constructor (installation: Option<Installation>, pullRequest: Option<PullRequest>)
      ensures this.installation == installation && this.pullRequest == pullRequest
      ensures meta == EmptyMetaData
    {
      this.installation := installation;
      this.pullRequest := pullRequest;
      meta := EmptyMetaData;
    }

    /**
     * `getMeta`: assigns the metadata fields one check at a time and stops at
     * the first failure, leaving the fields it did not reach as they were.
     */
    method GetMeta() returns (err: Option<MetaError>)
      modifies this`meta
      ensures var r := MetaFor(installation, pullRequest);
        && err == (if r.Failure? then Some(r.error) else None)
        && meta.installationID == InstallationID(installation)
        && meta.pullRequestNumber ==
             (if Reaches(r, 1) then PullRequestNumber(pullRequest) else old(meta.pullRequestNumber))
        && meta.base == (if Reaches(r, 3) then BranchMetaOrZero(Base(pullRequest).value) else old(meta.base))
        && meta.head == (if Reaches(r, 5) then BranchMetaOrZero(Head(pullRequest).value) else old(meta.head))
    {
      meta := meta.(installationID := InstallationID(installation));
      if meta.installationID == 0 {
        return Some(NoInstallationID);
      }
      meta := meta.(pullRequestNumber := PullRequestNumber(pullRequest));
      if meta.pullRequestNumber == 0 {
        return Some(NoPullRequestNumber);
      }
      var base := Base(pullRequest);
      if base.None? {
        return Some(NoBase);
      }
      var baseMeta := GetBranchMeta(base.value);
      meta := meta.(base := if baseMeta.Success? then baseMeta.value else EmptyBranchMeta);
      if baseMeta.Failure? {
        return Some(BaseMetaFailed(baseMeta.error));
      }
      var head := Head(pullRequest);
      if head.None? {
        return Some(NoHead);
      }
      var headMeta := GetBranchMeta(head.value);
      meta := meta.(head := if headMeta.Success? then headMeta.value else EmptyBranchMeta);
      if headMeta.Failure? {
        return Some(HeadMetaFailed(headMeta.error));
      }
      return None;
    }
  }

  // ---------------------------------------------------------------- owner and repository

  /**
   * `strings.SplitN(s, string(sep), 2)`: the whole string when `sep` does not
   * occur, otherwise the parts before and after its first occurrence.
   */
  function SplitOnce(s: string, sep: char): (parts: seq<string>)
    ensures 1 <= |parts| <= 2
    ensures |parts| == 1 <==> sep !in s
    ensures |parts| == 1 ==> parts[0] == s
    ensures |parts| == 2 ==> parts[0] + [sep] + parts[1] == s && sep !in parts[0]
  {
    if s == [] then [s]
    else if s[0] == sep then ["", s[1..]]
    else
      var rest := SplitOnce(s[1..], sep);
      if |rest| == 1 then [s] else [[s[0]] + rest[0], rest[1]]
  }

  datatype OwnerAndRepo = OwnerAndRepo(owner: string, repo: string, err: Option<string>)

  /** `parseOwnerAndRepo`: splits "owner/repo" at the first slash. */
  function ParseOwnerAndRepo(s: string): (r: OwnerAndRepo)
    ensures r.err.None? <==> '/' in s
    ensures r.err.None? ==> r.owner + "/" + r.repo == s && '/' !in r.owner
    ensures r.err.Some? ==> r == OwnerAndRepo("", "", Some("unable to parse repository"))
  {
    var p := SplitOnce(s, '/');
    if |p| == 2 then OwnerAndRepo(p[0], p[1], None)
    else OwnerAndRepo("", "", Some("unable to parse repository"))
  }

  /** In `a + [sep] + b` with no `sep` in `a`, the first `sep` is at `|a|`. */
  lemma FirstSeparatorAt(a: string, b: string, sep: char)
    requires sep !in a
    ensures sep in a + [sep] + b && FirstIndex(a + [sep] + b, sep) == |a|
  {
    var s := a + [sep] + b;
    assert s[|a|] == sep && s[..|a|] == a;
  }

  /** Two splits of one string at a first occurrence of `sep` are the same split. */
  lemma FirstSplitUnique(a: string, b: string, a': string, b': string, sep: char)
    requires a + [sep] + b == a' + [sep] + b'
    requires sep !in a && sep !in a'
    ensures a == a' && b == b'
  {
    var s := a + [sep] + b;
    FirstSeparatorAt(a, b, sep);
    FirstSeparatorAt(a', b', sep);
    assert a == s[..|a|] == a';
    assert b == s[|a| + 1..] == b';
  }

  /**
   * Joining an owner without a slash to any repository name and parsing the
   * result gives both back: a repository part may itself contain slashes.
   */
  lemma ParseJoinedOwnerAndRepo(owner: string, repo: string)
    requires '/' !in owner
    ensures ParseOwnerAndRepo(owner + "/" + repo) == OwnerAndRepo(owner, repo, None)
  {
    var s := owner + "/" + repo;
    assert s[|owner|] == '/';
    var r := ParseOwnerAndRepo(s);
    FirstSplitUnique(r.owner, r.repo, owner, repo, '/');
  }

  // ---------------------------------------------------------------- review assembly

  /** The comment text for an issue, with the linter's name appended when asked for. */
  function CommentBody(issue: Linter.Issue, includeLinterName: bool): (body: string)
    ensures |body| >= |issue.text| && body[..|issue.text|] == issue.text
    ensures body == issue.text <==> !includeLinterName
    ensures includeLinterName ==> body[|issue.text|..] == " (from " + issue.fromLinter + ")"
  {
    var text := issue.text;
    if includeLinterName then text + " (from " + issue.fromLinter + ")" else text
  }

  /** The draft comment for an issue: its file, its line number as position, its body. */
  function CommentFor(issue: Linter.Issue, includeLinterName: bool): DraftReviewComment {
    DraftReviewComment(issue.file, issue.lineNumber, CommentBody(issue, includeLinterName))
  }

  function CommentsFor(issues: seq<Linter.Issue>, includeLinterName: bool): (cs: seq<DraftReviewComment>)
    ensures |cs| == |issues|
    ensures forall k :: 0 <= k < |issues| ==> cs[k] == CommentFor(issues[k], includeLinterName)
  {
    seq(|issues|, k requires 0 <= k < |issues| => CommentFor(issues[k], includeLinterName))
  }

  predicate NoDuplicates<T(==)>(s: seq<T>) {
    forall i, j :: 0 <= i < j < |s| ==> s[i] != s[j]
  }

  /** The position of the first occurrence of `x` in `s`. */
  function FirstIndex<T(==)>(s: seq<T>, x: T): (k: nat)
    requires x in s
    ensures k < |s| && s[k] == x && x !in s[..k]
  {
    if s[0] == x then 0 else 1 + FirstIndex(s[1..], x)
  }

  /** The elements of `s` without repeats, each kept at its first occurrence. */
  function Distinct<T(==)>(s: seq<T>): seq<T> {
    if s == [] then []
    else
      var d := Distinct(s[..|s| - 1]);
      if s[|s| - 1] in d then d else d + [s[|s| - 1]]
  }

  /** `Distinct` keeps exactly the elements of its input. */
  lemma {:induction false} DistinctSameElements<T>(s: seq<T>)
    ensures forall x :: x in Distinct(s) <==> x in s
  {
    if s != [] {
      var s' := s[..|s| - 1];
      DistinctSameElements(s');
      assert s == s' + [s[|s| - 1]];
    }
  }

  /** `Distinct` never repeats an element. */
  lemma {:induction false} DistinctHasNoDuplicates<T>(s: seq<T>)
    ensures NoDuplicates(Distinct(s))
  {
    if s != [] {
      DistinctHasNoDuplicates(s[..|s| - 1]);
    }
  }

  /** `x` first occurs at the same place in `s` and in any extension of `s`. */
  lemma FirstIndexOfExtension<T>(s: seq<T>, t: seq<T>, x: T)
    requires x in s
    ensures x in s + t && FirstIndex(s + t, x) == FirstIndex(s, x)
  {
    assert (s + t)[..|s|] == s;
  }

  /** `Distinct` lists the elements in the order of their first occurrences. */
  lemma {:induction false} DistinctFirstOccurrenceOrder<T>(s: seq<T>)
    ensures forall x :: x in Distinct(s) ==> x in s
    ensures forall i, j :: 0 <= i < j < |Distinct(s)| ==>
      FirstIndex(s, Distinct(s)[i]) < FirstIndex(s, Distinct(s)[j])
  {
    DistinctSameElements(s);
    if s != [] {
      var s', x := s[..|s| - 1], s[|s| - 1];
      assert s == s' + [x];
      var d', d := Distinct(s'), Distinct(s);
      DistinctFirstOccurrenceOrder(s');
      DistinctSameElements(s');
      forall i, j | 0 <= i < j < |d| ensures FirstIndex(s, d[i]) < FirstIndex(s, d[j]) {
        assert d[i] == d'[i];
        FirstIndexOfExtension(s', [x], d[i]);
        if j < |d'| {
          assert d[j] == d'[j];
          FirstIndexOfExtension(s', [x], d[j]);
        } else {
          assert d[j] == x && x !in s';
          assert x !in s[..|s'|];
        }
      }
    }
  }

  /**
   * The comment list `Run` builds: the issues' comments, each added unless an
   * equal (path, position, body) comment is already in the list.
   */
  method AssembleComments(issues: seq<Linter.Issue>, includeLinterName: bool)
    returns (comments: seq<DraftReviewComment>)
    ensures comments == Distinct(CommentsFor(issues, includeLinterName))
    ensures NoDuplicates(comments)
    ensures forall k :: 0 <= k < |issues| ==> CommentFor(issues[k], includeLinterName) in comments
    ensures forall c :: c in comments ==> exists k :: 0 <= k < |issues| && c == CommentFor(issues[k], includeLinterName)
  {
    ghost var all := CommentsFor(issues, includeLinterName);
    comments := [];
    for i := 0 to |issues|
      invariant comments == Distinct(all[..i])
    {
      var text := issues[i].text;
      if includeLinterName {
        text := text + " (from " + issues[i].fromLinter + ")";
      }
      var comment := DraftReviewComment(issues[i].file, issues[i].lineNumber, text);
      var addToList := true;
      var j := 0;
      while j < |comments|
        invariant 0 <= j <= |comments|
        invariant addToList ==> comment !in comments[..j]
        invariant !addToList ==> comment in comments
      {
        if comments[j] == comment {
          addToList := false;
          break;
        }
        j := j + 1;
      }
      assert all[..i + 1] == all[..i] + [comment];
      if addToList {
        comments := comments + [comment];
      }
    }
    assert all[..|issues|] == all;
    DistinctSameElements(all);
    DistinctHasNoDuplicates(all);
    forall c | c in comments ensures exists k :: 0 <= k < |issues| && c == CommentFor(issues[k], includeLinterName) {
      var k :| 0 <= k < |all| && all[k] == c;
    }
  }

  function IssueCountBody(count: nat): string {
    "golangci-lint found " + Fmt.Decimal(count) + " issues"
  }

  /**
   * The review request `Run` submits for the head commit: approve when there
   * are no issues, request changes otherwise; the body counts every issue,
   * including those whose comments were dropped as repeats.
   */
  method AssembleReview(headSHA: string, issues: seq<Linter.Issue>, includeLinterName: bool)
    returns (req: PullRequestReviewRequest)
    ensures req.commitID == headSHA
    ensures req.body == IssueCountBody(|issues|)
    ensures req.event == Approve <==> |issues| == 0
    ensures req.comments == Distinct(CommentsFor(issues, includeLinterName))
  {
    var event := if |issues| <= 0 then Approve else RequestChanges;
    var comments := AssembleComments(issues, includeLinterName);
    req := PullRequestReviewRequest(headSHA, IssueCountBody(|issues|), event, comments);
  }

  /** The issue count is recoverable from the review body. */
  lemma ReviewBodyCount(a: seq<Linter.Issue>, b: seq<Linter.Issue>)
    requires IssueCountBody(|a|) == IssueCountBody(|b|)
    ensures |a| == |b|
  {
    var p := "golangci-lint found ";
    assert Fmt.Decimal(|a|) + " issues" == IssueCountBody(|a|)[|p|..];
    assert Fmt.Decimal(|a|) == IssueCountBody(|a|)[|p|..|IssueCountBody(|a|)| - 7];
    assert Fmt.Decimal(|b|) == IssueCountBody(|b|)[|p|..|IssueCountBody(|b|)| - 7];
    Fmt.DecimalInjective(|a|, |b|);
  }

  /** A variable holding an issue, which comments may point into. */
  class IssueVar {
    var value: Linter.Issue

    constructor ()
      ensures value == Linter.Issue("", "", "", 0, 0)
    {
      value := Linter.Issue("", "", "", 0, 0);
    }
  }

  /** The comment whose path, position and body point into `v`, as read now. */
  function Deref(v: IssueVar): DraftReviewComment
    reads v
  {
    DraftReviewComment(v.value.file, v.value.lineNumber, v.value.text)
  }

  /** The comment list the aliased loop leaves: nothing, or the last issue's comment. */
  function AsWrittenComments(issues: seq<Linter.Issue>, includeLinterName: bool): seq<DraftReviewComment> {
    if issues == [] then [] else [CommentFor(issues[|issues| - 1], includeLinterName)]
  }

  /**
   * The comment list as the loop behaves when `range` reuses one loop variable
   * for every issue (Go before 1.22): every stored comment points into that one
   * variable, so each stored comment shows the current issue, the duplicate
   * check matches at the first stored comment, and nothing is added after the
   * first issue. When the list is read, it holds the last issue's comment.
   */
  method AssembleCommentsAsWritten(issues: seq<Linter.Issue>, includeLinterName: bool)
    returns (comments: seq<DraftReviewComment>)
    ensures comments == AsWrittenComments(issues, includeLinterName)
    ensures |comments| <= 1
    ensures issues != [] ==> comments == [CommentFor(issues[|issues| - 1], includeLinterName)]
  {
    var issue := new IssueVar();      // the range variable
    var stored: seq<IssueVar> := [];  // the variable each stored comment points into
    for i := 0 to |issues|
      invariant |stored| == if i == 0 then 0 else 1
      invariant forall k :: 0 <= k < |stored| ==> stored[k] == issue
      invariant i > 0 ==> Deref(issue) == CommentFor(issues[i - 1], includeLinterName)
    {
      issue.value := issues[i];
      if includeLinterName {
        issue.value := issue.value.(text := issue.value.text + " (from " + issue.value.fromLinter + ")");
      }
      var comment := issue;
      var addToList := true;
      if |stored| > 0 {
        // the scan compares the first stored comment and stops at a match
        var c := stored[0];
        addToList := !(c.value.file == comment.value.file
          && c.value.lineNumber == comment.value.lineNumber
          && c.value.text == comment.value.text);
      }
      if addToList {
        stored := stored + [comment];
      }
    }
    comments := [];
    for k := 0 to |stored|
      invariant |comments| == k
      invariant forall m :: 0 <= m < k ==> comments[m] == Deref(stored[m])
    {
      comments := comments + [Deref(stored[k])];
    }
  }

  /** Two issues in different files: the aliased loop keeps one comment, the intended one two. */
  lemma AliasingDropsComments()
    ensures var issues := [Linter.Issue("unused", "x", "a.go", 1, 0), Linter.Issue("unused", "x", "b.go", 1, 0)];
      && Distinct(CommentsFor(issues, false)) == [CommentFor(issues[0], false), CommentFor(issues[1], false)]
      && CommentFor(issues[0], false) != CommentFor(issues[1], false)
      && AsWrittenComments(issues, false) == [CommentFor(issues[1], false)]
      && AsWrittenComments(issues, false) != Distinct(CommentsFor(issues, false))
  {
    var issues := [Linter.Issue("unused", "x", "a.go", 1, 0), Linter.Issue("unused", "x", "b.go", 1, 0)];
    var cs := CommentsFor(issues, false);
    assert cs[..1][..0] == [];
    assert cs[..1] == [cs[0]];
    assert cs[..2][..1] == cs[..1];
    assert Distinct(cs[..1]) == [cs[0]];
    assert cs[..2] == cs;
    assert cs[0] != cs[1];
    assert Distinct(cs) == [cs[0], cs[1]];
  }
}
