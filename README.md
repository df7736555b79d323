# teams-notification, modelled in Dafny

A GitHub Action that posts a Microsoft Teams notification about a workflow
run. Its `run()` (src/index.ts) fetches the triggering commit and picks a
committer name. It looks up the actor, either the `github-actions` app or a
user. It fills one of two Adaptive Card (schema 1.0) messages, chosen by the
`notification-type` input, and posts that message to the webhook. It checks
the response status. Anything thrown inside its `try` (src/index.ts:12-227)
becomes `setFailed`.

The model keeps every decision and every string `run()` builds. The I/O
becomes parameters:

- `Wrappers` (wrappers.dfy): the `Option` type for nullable and omitted
  fields.
- `Text` (text.dfy): the JavaScript string operations the run uses.
  - Substring search (`Contains`, with an `exists`-based definition).
  - `substring(0, n)` (`Prefix`).
  - Number interpolation in template literals (`Decimal`, proved against
    `DecimalValue`).
  - The two fallbacks: `||` (`FalsyOr`) and `??` (`NullishOr`).
- `Card` (card.dfy): the posted message as a datatype tree, not as JSON
  text. It has queries that list the facts, the FactSets and the TextBlock
  texts in document order.
- `Notifier` (notifier.dfy):
  - committer and actor resolution;
  - the `deployedBy`, title, subtitle and URL strings;
  - the two cards, body selection, status handling and failure messages;
  - `Run`, the whole run as a function. It takes the inputs, the workflow
    context, the timestamp `now` and the `Replies` of the four awaited
    calls. It returns a `Trace`: the requests the run makes, in order, and
    the report, `Sent(status)` or `Failed(message)`.
- `RunProperties` (run_properties.dfy): lemmas about whole runs.

Three details of the code that the model keeps:

- The code never reads the webhook response body. Its error message for a
  non-ok status is built only from `status` and `statusText`.
- The name fallbacks use `||`, so an empty name falls back as well as a
  missing one.
- The error message of the catch uses `??`. An error whose message is `""`
  is reported as `""`, not as "Unknown error".

## Model

| member | source | states |
|---|---|---|
| `Notifier.ResolveCommit` | src/index.ts:24-28 | The committer name is the author's name when the author email is not exactly "invalid-email-address", and the committer's name when it is. The commit URL is the commit's `html_url`. |
| `Notifier.CommitterNameSource` | src/index.ts:24-27 | Exactly one name is consulted. The committer's name cannot affect the result unless the email is the sentinel. The author's name cannot affect it when the email is the sentinel. |
| `Notifier.ShortSha` | src/index.ts:14 | The short SHA is a prefix of the SHA of length min(7, length of the SHA). |
| `Text.Prefix` | src/index.ts:14 | `substring(0, n)` gives a prefix of length min(n, length of s), and the whole string when the string is shorter. |
| `Text.Contains` | src/index.ts:35 | The substring test is true exactly when the pattern occurs at some index. |
| `Text.ContainsInfix` | src/index.ts:35 | A string contains every string between any prefix and any suffix. |
| `Notifier.IsBotActor` | src/index.ts:35 | The bot test holds exactly when "github-actions" occurs at some index of the actor id. |
| `Notifier.ActorRequest` | src/index.ts:35-51 | An actor id containing "github-actions" looks up the app with slug "github-actions". Every other id looks up the user with that username. |
| `Notifier.BotActorAnywhere` | src/index.ts:35 | Any id with "github-actions" anywhere in it takes the bot branch. |
| `Notifier.EmbeddedBotActorExample` | src/index.ts:35-41 | "my-github-actions-bot" takes the bot branch. |
| `Notifier.HumanActorExample` | src/index.ts:45-51 | "octocat" takes the user branch and is looked up by that username. |
| `Notifier.ActorReply` | src/index.ts:35-55 | The run consumes the reply of the selected lookup only. Its value or its thrown message is passed on unchanged. |
| `Notifier.ResolveActor` | src/index.ts:42-54 | Bot: the avatar is the owner's avatar when the owner exists and the avatar is non-empty, and "" otherwise. The profile is the app's `html_url`. The name is the app name when truthy, and "GitHub Actions" otherwise. User: avatar and profile are the user's. The name is the user's name when truthy, and the raw actor id otherwise. |
| `Notifier.OwnerAvatar` | src/index.ts:42 | `owner?.avatar_url` is present exactly when the app has an owner, and is then that owner's avatar URL. |
| `Text.FalsyOr` | src/index.ts:42-44 | JavaScript's falsy-or operator on `v` and `f` gives `v` when `v` is present and non-empty, and `f` otherwise. |
| `Notifier.DisplayNameNonEmpty` | src/index.ts:44-54 | The display name is non-empty on the bot branch, and non-empty on the user branch whenever the actor id is non-empty. |
| `Notifier.MarkdownLink` | src/index.ts:58 | `[name](url)`: the text between "[" and "](" is the name, and the text between "](" and the final ")" is the URL. |
| `Notifier.RepoUrl` | src/index.ts:60 | The repository link is "https://github.com/" followed by owner/repo. |
| `Notifier.ActivityTitle` | src/index.ts:60 | The title starts with "CI #", the run number, " (commit ", the short SHA and ") on ". It ends with a Markdown link from owner/repo to the repository URL. |
| `Notifier.ActivityTitleNames` | src/index.ts:60 | The title contains the run number and the short SHA. |
| `Text.Decimal` | src/index.ts:60 | A run number is rendered as a non-empty digit string without a leading zero that denotes that number. |
| `Text.DecimalInjective` | src/index.ts:60 | Distinct numbers render as distinct strings. |
| `Notifier.MakeNotice` | src/index.ts:57-61 | `deployedBy` is the link from the actor name to the actor URL. The date is the given timestamp. The subtitle is "Committed by " and the committer name. The workflow-run URL is built from owner, repo and run id. |
| `Notifier.WorkflowRunUrl` | src/index.ts:154 | The workflow-run URL is the repository URL, then "/actions/runs/", then the run id. |
| `Notifier.WorkflowRunUrlInjective` | src/index.ts:154 | Within one repository, distinct run ids give distinct workflow-run URLs. |
| `Notifier.DeploymentBody` | src/index.ts:64-165 | The deployment card is a Teams message with one Adaptive Card 1.0 attachment, msteams width "Full" and two actions. Its facts, texts and action targets are stated by `Notifier.DeploymentCardShape`. |
| `Notifier.DeploymentCardShape` | src/index.ts:64-165 | The deployment card is a "message" with one Adaptive Card 1.0 attachment and msteams width "Full". It has exactly one FactSet with the facts "Deployed by:", "Deployed on:", "Branch:" in that order, valued `[name](url)`, the timestamp and the ref. It has exactly two OpenUrl actions, the workflow run and then the commit. Its texts in order are the summary, the actor link, "Created " and the timestamp, the title and the subtitle. |
| `Notifier.InformationBody` | src/index.ts:167-192 | The information card is a Teams message with one Adaptive Card 1.0 attachment, no msteams property and no actions. Its facts and texts are stated by `Notifier.InformationCardShape`. |
| `Notifier.InformationCardShape` | src/index.ts:167-192 | The information card is a "message" with one Adaptive Card 1.0 attachment. It has no msteams property, no actions, no facts and no FactSet. Its only text is the summary. |
| `Card.QueriesOfTwo` | src/index.ts:74-149 | Helper for `Notifier.DeploymentCardShape`, not a model of these lines: the facts, FactSet count and texts of a two-element body are those of the first element, then those of the second. |
| `Card.QueriesOfTwoColumns` | src/index.ts:87-120 | Helper for `Notifier.DeploymentCardShape`, not a model of these lines: the facts, FactSet count and texts of a two-column set are those of the first column, then those of the second. |
| `Notifier.SelectBody` | src/index.ts:195-200 | "deployment" selects the deployment card and "information" the information card. A body is selected exactly when the type is one of those two values. |
| `Notifier.BodyFor` | src/index.ts:57-200 | A body is built and selected exactly when the type is "deployment" or "information". It is then a Teams card, and it has two actions exactly when the type is "deployment". |
| `Notifier.InvalidTypeMessage` | src/index.ts:202-206 | The error for an invalid type contains the given type value. |
| `Notifier.IsOkStatus` | src/index.ts:218 | `response.ok` holds exactly for the 2xx statuses, the "ok status" range of WHATWG Fetch Standard section 2.2.3. |
| `Notifier.Dispatch` | src/index.ts:218-224 | The result is success exactly when the status is in 200-299, the "ok status" range of WHATWG Fetch Standard section 2.2.3, and success carries that status. Otherwise the failure message contains the status code and the status text. |
| `Notifier.StatusFailureMessage` | src/index.ts:219-221 | The non-ok message contains the decimal status code and the status text. |
| `Notifier.FailureMessage` | src/index.ts:226 | A nullish error message becomes "Unknown error". A present message, including "", is kept as it is. |
| `Text.NullishOr` | src/index.ts:226 | JavaScript's nullish-coalescing operator on `v` and `f` gives `v` whenever `v` is present, even when empty, and `f` otherwise. |
| `Text.FalsyAndNullishDiffer` | src/index.ts:42-54 | The falsy-or and nullish-coalescing operators with a non-empty fallback differ exactly on the present empty string. |
| `Notifier.Caught` | src/index.ts:225-226 | Whatever the catch receives ends the run as a failure. |
| `Notifier.Run` | src/index.ts:12-227 | A run makes one to three requests, the first being the commit fetch with owner, repo and SHA. A run that succeeds made the POST as its third request and got an ok status. Its other properties are stated by the `RunProperties` lemmas, above all `RunSentIff`, `RunRequestOrder`, `RunInvalidType`, `RunWebhookThrows` and `RunDeploymentCard`. |
| `RunProperties.PostedBodyOf` | src/index.ts:209-216 | A list of requests has a posted body exactly when it holds a webhook post, and that body is the body of one of its posts. |
| `RunProperties.PostedBody` | src/index.ts:209-216 | A run has a posted body exactly when it posts. |
| `RunProperties.RunRequestOrder` | src/index.ts:12-216 | A run first fetches the commit with owner, repo and SHA. It looks up the actor only when the commit fetch returned. It posts at most once, last, to the configured webhook URI. |
| `RunProperties.RunUsesOneLookup` | src/index.ts:35-55 | A bot actor's run does not depend on the user lookup. A human actor's run does not depend on the app lookup. |
| `RunProperties.RunCommitLookupFails` | src/index.ts:15-22 | A throwing commit fetch ends the run after that single request, with its message, whatever the notification type. |
| `RunProperties.RunActorLookupFails` | src/index.ts:36-51 | A throwing actor lookup ends the run with its message, before any post. |
| `RunProperties.RunInvalidType` | src/index.ts:195-209 | After both lookups return, a type other than "deployment" or "information" fails with a message containing the type, and no POST is made. |
| `RunProperties.RunPostsOnlyKnownType` | src/index.ts:195-216 | A run that posts had both lookups return and a known type. |
| `RunProperties.RunSentIff` | src/index.ts:12-224 | A run succeeds exactly when both lookups returned, the type is known, the POST returned and its status is ok, and it reports that status. |
| `RunProperties.RunBadStatus` | src/index.ts:195-222 | After both lookups return with a known type, a POST answered with a non-ok status fails with a message containing the status code and the status text. |
| `RunProperties.RunThrownMessage` | src/index.ts:225-226 | When the commit fetch throws, a thrown value without a message fails with "Unknown error", and an empty message fails with "". |
| `RunProperties.RunWebhookThrows` | src/index.ts:209-226 | After both lookups return with a known type, a webhook POST that throws was still issued, and the run fails with that error's message (or "Unknown error" if it has none). |
| `RunProperties.RunDeploymentCard` | src/index.ts:24-165 | A "deployment" run posts exactly the deployment card built from the resolved commit and actor. Its facts are the actor link, `now` and the ref, in that order. Its actions are the workflow-run URL and then the commit's `html_url`. Its texts are the summary, the actor link, "Created " and `now`, the title with the run number and short SHA, and "Committed by " with the resolved committer name. |
| `RunProperties.RunInformationCard` | src/index.ts:167-200 | An "information" run posts the information card: no actions, no facts, no FactSet, and the summary as its only text. |
| `RunProperties.ServerErrorExample` | src/index.ts:218-222 | Status 500 with "server error" fails with a message containing "500" and "server error". |
| `RunProperties.NoContentExample` | src/index.ts:218-224 | Status 204 succeeds with 204. |

## Left out

- `getInput`, `setFailed` and `context` (src/index.ts:1-10) are library calls. Their values are parameters (`Inputs`, `RunContext`), and `setFailed(msg)` is the `Failed(msg)` report.
- The `gh-token` input and `getOctokit` are not modelled. They only authenticate the API client.
- src/index.ts:5-10 (the `getInput` calls and `getOctokit`) run before the `try` at line 12. A throw there skips `setFailed` and makes the un-awaited `run()` at line 231 reject. That path is not modelled: every modelled throw is one inside the `try`.
- The API calls `git.getCommit`, `apps.getBySlug` and `users.getByUsername` are network I/O. Each is a `Reply` parameter: the fields the run reads, or a thrown message. The `X-GitHub-Api-Version` header is not modelled.
- `fetch` and the HTTP POST are network I/O. Only the request (URI and card) and the returned status code and status text are modelled. The request headers are not modelled.
- `JSON.stringify` is not modelled. The card is a datatype tree: the JSON "type" of each object is its constructor name, and an omitted property is `None`.
- `new Date().toISOString()` reads the clock. The timestamp is the opaque string parameter `now`.
- `console.log` is not modelled; only the status inside `Sent` is kept. The `JEST_WORKER_ID` auto-run gate is not modelled either. Both are process and environment side effects.
- `String.match` is modelled as substring containment. The pattern "github-actions" has no regular-expression metacharacters, so no regex engine is modelled.
- Text.Decimal: matches JavaScript number-to-string only for integers below 10^21. Larger numbers are printed in exponent notation, which is not modelled. Run numbers, run ids and HTTP statuses stay far below that.
- Text.Prefix: counts Unicode scalar values, while JavaScript `substring` counts UTF-16 code units. The two differ only for characters outside the Basic Multilingual Plane, which a commit SHA never contains.
- Coercion of non-string values in template literals is not modelled. API fields typed as strings are treated as strings, and a nullable name or owner is an `Option`.
- Property reads on malformed API data (for example a reply with no `author`) throw a TypeError in the source. They are not modelled, because each reply is a well-formed record or a throw.
