# golangci-lint-runner: a Dafny model of its decision logic

golangci-lint-runner is a GitHub App. It receives pull-request webhooks, runs
golangci-lint on the pull request's head and posts one review: approve when the
analyzer reports nothing, request changes otherwise, with one comment per issue.
This project models the parts of that program that decide things:

- `linter.dfy` (linter.go): the analyzer's argument list, the failure cases of
  a run, and the translation of the analyzer's JSON issues into the runner's
  issues. The subprocess and the JSON decoder are function parameters.
- `runner.dfy` (runner.go): validation of the pull request's metadata
  (`getMeta`, `getBranchMeta`), the owner/repository split, and the review
  request `Run` assembles: its event, its body and its comment list, where a
  comment equal in path, position and body to one already in the list is skipped.
- `server.dfy` (server.go): option validation and defaulting in `NewServer`,
  the write-once status of `Writer`, the mapping from handler errors to HTTP
  responses, and the dispatch of webhook events and pull-request actions.
- `github.dfy`: the go-github records the core reads, with the library's
  nil-safe getters; `wrappers.dfy`: `Option`, `Result` and `byte`;
  `fmt.dfy`: `%d` rendering of the issue count, with its round trip.

Go nil pointers are `Option`s. A go-github getter returns `""` or `0` for a nil
field, so "missing" means nil or empty throughout, as in the code.

## What the program does

- Each comment is positioned at the issue's line number (runner.go:150).
  The issue's hunk position is carried but not used.
- A comment is skipped only when an equal (path, position, body) comment is
  already in the list being built (runner.go:154-163).
- The event is APPROVE exactly when there are no issues, and a request for
  changes otherwise (runner.go:137-141).
- `getMeta` checks in this order: installation id, pull-request number, base
  present, base metadata, head present, head metadata (runner.go:222-249).
- linter.go is out of step with runner.go. runner.go:127 passes three
  arguments, while linter.go:28 takes one and reads fields `Runner` does not
  have. linter.go is modelled against its own inputs (`LinterConfig`).

## Model

| member | source | states |
|---|---|---|
| `Linter.BuildArgs` | linter.go:29-42 | the argument list is the eight fixed flags in order, with the timeout and patch file embedded, followed by exactly one `--enable=<name>` per configured linter in configured order; length 8 + number of linters |
| `Linter.LinterArgsShape` | linter.go:29-42 | the specification of the argument list has the fixed prefix, the embedded timeout and patch file, and one enable flag per linter at position 8 + k |
| `Linter.EnableFlagsAt` | linter.go:40-42 | one enable flag per linter, the k-th naming the k-th linter |
| `Linter.TranslateIssues` | linter.go:78-87 | one issue per reported issue, in the same order, with file, line number, text, linter name and hunk position copied unchanged |
| `Linter.RunLinter` | linter.go:28-92 | the analyzer is started as `golangci-lint` with the argument list in the git directory; a failed run is an error carrying its cause and no result; output that does not decode is an error carrying the output; otherwise the translated issues, the raw output unchanged as the JSON result, and 0 as the per-file maximum |
| `Runner.GetBranchMeta` | runner.go:254-303 | fails exactly when one of sha, ref, repo, repo name, full name, clone URL, owner, login is nil or empty, and then reports the first missing one in that order; on success owner name = login, repo name = name, and full name, clone URL, ref and sha are copied |
| `Runner.MetaFor` | runner.go:219-252 | fails exactly when a check fails, reporting the first failing one in the order id, number, base present, base metadata (with the branch error), head present, head metadata; on success the metadata holds the id, the number and both branches' metadata |
| `Runner.Runner.GetMeta` | runner.go:219-252 | returns the error `MetaFor` gives; assigns the fields one check at a time, so a field the checks did not reach keeps its old value and a failed branch leaves the zero branch metadata |
| `Runner.SplitOnce` | runner.go:189 | `SplitN(s, "/", 2)`: one part (the whole string) exactly when the separator is absent, otherwise the parts around its first occurrence |
| `Runner.ParseOwnerAndRepo` | runner.go:188-194 | succeeds exactly when the string has a slash, and then owner + "/" + repo is the input with no slash in the owner; otherwise an error with empty owner and repo |
| `Runner.ParseJoinedOwnerAndRepo` | runner.go:188-194 | parsing owner + "/" + repo gives owner and repo back whenever the owner has no slash, so "a/b/c" gives "a" and "b/c" |
| `Runner.CommentBody` | runner.go:144-146 | the body starts with the issue text; it equals the text exactly when the linter name is not asked for, and otherwise the rest is " (from <linter>)" |
| `Runner.DistinctSameElements` | runner.go:143-164 | the deduplicated list has exactly the elements of the input |
| `Runner.DistinctHasNoDuplicates` | runner.go:154-163 | the deduplicated list never holds two equal comments |
| `Runner.DistinctFirstOccurrenceOrder` | runner.go:154-163 | the deduplicated list orders its elements by their first occurrence in the input |
| `Runner.AssembleComments` | runner.go:143-164 | the comment list is the issues' comments without repeats in first-occurrence order: no two equal (path, position, body) triples, every issue's comment present, nothing else present |
| `Runner.AssembleReview` | runner.go:133-164 | the request is for the head commit; the event is approve exactly when there are no issues; the body counts all issues before deduplication; the comments are those of `AssembleComments` |
| `Runner.ReviewBodyCount` | runner.go:135 | two review bodies are equal only for equal issue counts |
| `Fmt.DecimalRoundTrip` | runner.go:135 | reading back the decimal text `%d` prints gives the number |
| `Runner.AssembleCommentsAsWritten` | runner.go:143-164 | with one shared loop variable, the list read back is `AsWrittenComments`: at most one comment, empty for no issues and otherwise only the last issue's comment |
| `Runner.AliasingDropsComments` | runner.go:149-156 | for two issues in a.go and b.go, the intended list has two distinct comments. The aliased loop's list (`AsWrittenComments`) holds only the b.go comment, so the two lists differ |
| `Server.CheckOptions` | server.go:43-58 | the rejection is the first unmet requirement in the order options present, private key, webhook secret, app id, logger; none when all are met |
| `Server.NewServer` | server.go:42-65 | rejects as `CheckOptions` says; copies the secret's bytes once the secret check passes, even when a later check rejects; on acceptance replaces a non-positive timeout by 60 minutes and keeps a positive one; changes no other option |
| `Server.Writer.constructor` | server.go:88-91 | a new writer has written no status |
| `Server.Writer.WriteHeader` | server.go:78-84 | the first call passes its status on and sets the flag; later calls change nothing |
| `Server.WrittenWriterIgnoresWrites` | server.go:79-81 | once a status is written, any series of calls leaves the writer unchanged |
| `Server.FirstStatusWins` | server.go:78-84 | of any series of calls on a fresh writer exactly the first status reaches the response |
| `Server.ErrorReplyFor` | server.go:93-109 | a wire error keeps a non-zero status, status 0 becomes 500; its body is the public text, or "error" when there is none; any other error is a 500 with its own text; the status is never 0 |
| `Server.PrivateErrorNotShown` | server.go:98-103 | the private error of a wire error does not affect the response |
| `Server.Handle` | server.go:92-111 | an error gives its error response and leaves the writer alone; success writes 200 through the writer, which passes it on only if no status was written before |
| `Server.HandlePullRequestOpened` | server.go:150-171 | a missing pull request or installation is a wire error with status 0 and only a private text; a runner that cannot be created gives "unable to create runner" publicly with the cause privately; otherwise no error |
| `Server.HandlePullRequest` | server.go:141-148 | only the actions opened, reopened and synchronize proceed; any other action is no error |
| `Server.HandleEvent` | server.go:115-139 | an invalid payload is a 400; ping and installation events are no error; pull-request events are dispatched; any other event, a nil one included, is a 400 "unknown event" |
| `Server.WebhookResponses` | server.go:92-138 | every webhook request is answered 200, 400 or 500; an error body is one of four public texts; the answer is 200 exactly for ping and installation events, unhandled actions, and pull requests whose runner was created |

## Left out

- runner.go:92-131 and 166-217: the work directory, the clone, the patch
  download, the analyzer call and the review submission are file-system,
  git and network I/O. The issues are an input and the review request is the output.
- runner.go:56-90 (`NewRunner`): client construction and the installation
  token are calls into go-github and the token service.
- linter.go:44-47 and 69-72: the subprocess and `json.Unmarshal` are the
  parameters `run` and `decode`. Their results are not constrained.
- linter.go:36: the `time.Duration` rendering by `%s` is not modelled. The timeout enters as its text.
- linter.go:52-67: this branch cannot be taken after the return at 48-50. The model asserts that and does not model its body.
- linter.go:45 and 74-76, and every logger call: logging has no stated behaviour.
- server.go:67-71 (`HttpHandler`): the request router is net/http plumbing.
- server.go:117 and 125: the HMAC signature check and payload parsing are
  go-github calls. Their outcome is the inputs `payloadValid` and `event`.
  The parser returns a nil event for an event type it does not know. For a
  known type that fails to decode, it returns the partly filled event with an
  error. The code ignores that error, and the unconstrained `event` input
  covers that case.
- server.go:164-176: the context timeout and the goroutine that runs the
  runner are concurrency. The runner's creation is the input `newRunner`.
- Server.ErrorReplyFor: the headers `http.Error` sets, and net/http's treatment
  of a status written twice or out of range, are not modelled.
- The error texts of `getBranchMeta`, `getMeta` and `NewServer` are not
  modelled. Each error is the case of `BranchError`, `MetaError` or
  `OptionsError` that names it.
- internal/clients.go (JWT signing, HTTP transports) and
  cmd/golangci-lint-runner/main.go (flag parsing, server start, a second copy
  of the handler) are not part of this model. internal/wire_error.go is the
  `WireError` case of `Server.HandlerError`.
- runner_test.go tests functions absent from these sources.

## Findings

| source | as written | input that shows it | evidently intended | confidence | as-written member | corrected member |
|---|---|---|---|---|---|---|
| runner.go:143-163 | each comment stores `&issue.File`, `&issue.LineNumber` and `&issue.Text` of the `range` variable. Before Go 1.22 that is one variable for the whole loop. So every stored comment shows the current issue, the duplicate check compares the issue with itself, and the list keeps one comment: the last issue's | two issues with the same text and line in a.go and b.go: one comment, on b.go | one comment per distinct (path, position, body), in first-occurrence order | not executed; holds when the module's go.mod language version is below 1.22 | `Runner.AssembleCommentsAsWritten`, `Runner.AliasingDropsComments` | `Runner.AssembleComments` |
