/** The decision and assembly logic of the notifier's `run()`: resolve the
    committer and the actor from the hosting API's replies, build one of the
    two Teams cards, post it, and turn every error into a failure report.

    The API and webhook calls become a `Replies` parameter (what each call
    would return or throw); the clock becomes the `now` parameter; the
    action inputs and the workflow context become `Inputs` and `RunContext`.
    `Run` returns the requests the run issues, in order, together with the
    run's report: `Sent(status)` or `Failed(message)` for `setFailed`. */
module Notifier {
  import opened Wrappers
  import opened Text
  import opened Card

  const InvalidEmailSentinel := "invalid-email-address"
  const BotSlug := "github-actions"
  const BotNameFallback := "GitHub Actions"
  const UnknownError := "Unknown error"
  const GitHubBase := "https://github.com/"
  const ShortShaLength := 7

  // ---- Inputs, context and API replies ----

  /** The action inputs the run reads (the API token only authenticates the
      client and is not modelled). */
  datatype Inputs = Inputs(
    summary: string,
    webhookUri: string,
    colour: string,
    notificationType: string)

  /** The workflow context the run reads. */
  datatype RunContext = RunContext(
    sha: string,
    owner: string,
    repo: string,
    actor: string,
    runNumber: nat,
    runId: nat,
    ref: string)

  /** The fields of the API replies that the run reads. */
  datatype GitUser = GitUser(name: string, email: string)
  datatype CommitData = CommitData(author: GitUser, committer: GitUser, htmlUrl: string)
  datatype AppOwner = AppOwner(avatarUrl: string)
  datatype AppData = AppData(owner: Option<AppOwner>, htmlUrl: string, name: JsString)
  datatype UserData = UserData(avatarUrl: string, htmlUrl: string, name: JsString)
  datatype HttpResponse = HttpResponse(status: nat, statusText: string)

  /** What an awaited call does: return a value, or throw something whose
      `message` is given (None when the thrown value is nullish or has no
      message). */
  datatype Reply<T> = Returned(value: T) | Threw(message: JsString)

  datatype Replies = Replies(
    commit: Reply<CommitData>,
    app: Reply<AppData>,
    user: Reply<UserData>,
    webhook: Reply<HttpResponse>)

  /** The outbound calls of a run. */
  datatype Request =
    | GetCommit(owner: string, repo: string, commitSha: string)
    | GetAppBySlug(slug: string)
    | GetUserByUsername(username: string)
    | PostWebhook(uri: string, body: Message)

  datatype Report = Sent(status: nat) | Failed(message: string)

  datatype Trace = Trace(requests: seq<Request>, report: Report)

  // ---- Commit resolution ----

  datatype CommitInfo = CommitInfo(committerName: string, commitUrl: string)

  /** The name shown as committer is the author's, unless the author's email
      is the sentinel the API uses for an unknown address, in which case it
      is the committer's. */
  function ResolveCommit(c: CommitData): (r: CommitInfo)
    ensures r.commitUrl == c.htmlUrl
    ensures c.author.email != InvalidEmailSentinel ==> r.committerName == c.author.name
    ensures c.author.email == InvalidEmailSentinel ==> r.committerName == c.committer.name
  {
    CommitInfo(
      if c.author.email != InvalidEmailSentinel then c.author.name else c.committer.name,
      c.htmlUrl)
  }

  /** Exactly one of the two names is consulted: the committer's name is
      irrelevant unless the author's email is the sentinel, and the author's
      name is irrelevant when it is. */
  lemma CommitterNameSource(c: CommitData, other: GitUser)
    ensures c.author.email != InvalidEmailSentinel ==>
      ResolveCommit(c) == ResolveCommit(c.(committer := other))
    ensures c.author.email == InvalidEmailSentinel ==>
      ResolveCommit(c) == ResolveCommit(c.(author := GitUser(other.name, c.author.email)))
  {
  }

  /** The short form of a commit id: its first seven characters. */
  function ShortSha(sha: string): (r: string)
    ensures |r| == Min(ShortShaLength, |sha|)
    ensures r <= sha
  {
    Prefix(sha, ShortShaLength)
  }

  // ---- Actor resolution ----

  /** The bot branch is taken when the actor id contains "github-actions"
      anywhere. */
  function IsBotActor(actor: string): (bot: bool)
    ensures bot <==> exists i :: OccursAt(actor, BotSlug, i)
  {
    Contains(actor, BotSlug)
  }

  /** The lookup a run makes for its actor. */
  function ActorRequest(actor: string): (r: Request)
    ensures IsBotActor(actor) ==> r == GetAppBySlug(BotSlug)
    ensures !IsBotActor(actor) ==> r == GetUserByUsername(actor)
  {
    if IsBotActor(actor) then GetAppBySlug(BotSlug) else GetUserByUsername(actor)
  }

  /** The reply of the one lookup the actor id selects. */
  datatype ActorData = BotApp(app: AppData) | HumanUser(user: UserData)

  function ActorReply(actor: string, env: Replies): (r: Reply<ActorData>)
    ensures IsBotActor(actor) ==> (r.Returned? <==> env.app.Returned?)
    ensures !IsBotActor(actor) ==> (r.Returned? <==> env.user.Returned?)
    ensures r.Returned? ==> (r.value.BotApp? <==> IsBotActor(actor))
    ensures IsBotActor(actor) && env.app.Returned? ==> r.value == BotApp(env.app.value)
    ensures !IsBotActor(actor) && env.user.Returned? ==> r.value == HumanUser(env.user.value)
    ensures IsBotActor(actor) && env.app.Threw? ==> r.message == env.app.message
    ensures !IsBotActor(actor) && env.user.Threw? ==> r.message == env.user.message
  {
    if IsBotActor(actor) then
      match env.app
      case Returned(a) => Returned(BotApp(a))
      case Threw(m) => Threw(m)
    else
      match env.user
      case Returned(u) => Returned(HumanUser(u))
      case Threw(m) => Threw(m)
  }

  datatype ActorInfo = ActorInfo(avatarUrl: string, profileUrl: string, displayName: string)

  /** `owner?.avatar_url`: absent when the app has no owner. */
  function OwnerAvatar(app: AppData): (r: JsString)
    ensures r.Some? <==> app.owner.Some?
    ensures r.Some? ==> r.value == app.owner.value.avatarUrl
  {
    match app.owner
    case None => None
    case Some(o) => Some(o.avatarUrl)
  }

  /** Avatar, profile link and display name of the actor, with the falsy
      fallbacks: a bot without an owner avatar gets "", a bot without a name
      "GitHub Actions", a user without a name the raw actor id. */
  function ResolveActor(actor: string, data: ActorData): (r: ActorInfo)
    ensures data.BotApp? ==> r.profileUrl == data.app.htmlUrl
    ensures data.BotApp? && data.app.owner.Some? && data.app.owner.value.avatarUrl != ""
      ==> r.avatarUrl == data.app.owner.value.avatarUrl
    ensures data.BotApp? && (data.app.owner.None? || data.app.owner.value.avatarUrl == "")
      ==> r.avatarUrl == ""
    ensures data.BotApp? && Truthy(data.app.name) ==> r.displayName == data.app.name.value
    ensures data.BotApp? && !Truthy(data.app.name) ==> r.displayName == BotNameFallback
    ensures data.HumanUser? ==> r.avatarUrl == data.user.avatarUrl && r.profileUrl == data.user.htmlUrl
    ensures data.HumanUser? && Truthy(data.user.name) ==> r.displayName == data.user.name.value
    ensures data.HumanUser? && !Truthy(data.user.name) ==> r.displayName == actor
  {
    match data
    case BotApp(app) =>
      ActorInfo(FalsyOr(OwnerAvatar(app), ""), app.htmlUrl, FalsyOr(app.name, BotNameFallback))
    case HumanUser(user) =>
      ActorInfo(user.avatarUrl, user.htmlUrl, FalsyOr(user.name, actor))
  }

  /** Any id with "github-actions" inside it, not only the exact slug, takes
      the bot branch. */
  lemma BotActorAnywhere(prefix: string, suffix: string)
    ensures IsBotActor(prefix + BotSlug + suffix)
    ensures ActorRequest(prefix + BotSlug + suffix) == GetAppBySlug(BotSlug)
  {
    ContainsInfix(prefix, BotSlug, suffix);
  }

  /** For instance "my-github-actions-bot" takes the bot branch. */
  lemma EmbeddedBotActorExample(actor: string)
    requires actor == "my-github-actions-bot"
    ensures ActorRequest(actor) == GetAppBySlug(BotSlug)
  {
    assert OccursAt(actor, BotSlug, 3);
  }

  lemma HumanActorExample()
    ensures ActorRequest("octocat") == GetUserByUsername("octocat")
  {
    NotContainsLonger("octocat", BotSlug);
  }

  /** The display name is never empty, except for a human actor whose id is
      itself empty and whose profile has no name. */
  lemma DisplayNameNonEmpty(actor: string, data: ActorData)
    requires data.BotApp? || actor != ""
    ensures ResolveActor(actor, data).displayName != ""
  {
  }

  // ---- The strings shared by the cards ----

  /** A Markdown link `[text](url)`. */
  function MarkdownLink(text: string, url: string): (r: string)
    ensures |r| == |text| + |url| + 4
    ensures r[0] == '[' && r[1..|text| + 1] == text
    ensures r[|text| + 1..|text| + 3] == "]("
    ensures r[|text| + 3..|r| - 1] == url && r[|r| - 1] == ')'
  {
    "[" + text + "](" + url + ")"
  }

  function RepoUrl(owner: string, repo: string): (r: string)
    ensures GitHubBase <= r
    ensures r[|GitHubBase|..] == owner + "/" + repo
  {
    GitHubBase + owner + "/" + repo
  }

  /** The link to the workflow run: the repository URL, then
      "/actions/runs/" and the run id. */
  function WorkflowRunUrl(owner: string, repo: string, runId: nat): (r: string)
    ensures RepoUrl(owner, repo) + "/actions/runs/" <= r
    ensures r[|RepoUrl(owner, repo) + "/actions/runs/"|..] == Decimal(runId)
  {
    RepoUrl(owner, repo) + "/actions/runs/" + Decimal(runId)
  }

  /** Within one repository, distinct runs get distinct links. */
  lemma WorkflowRunUrlInjective(owner: string, repo: string, a: nat, b: nat)
    requires WorkflowRunUrl(owner, repo, a) == WorkflowRunUrl(owner, repo, b)
    ensures a == b
  {
    var p := |RepoUrl(owner, repo) + "/actions/runs/"|;
    assert Decimal(a) == WorkflowRunUrl(owner, repo, a)[p..];
    assert Decimal(b) == WorkflowRunUrl(owner, repo, b)[p..];
    DecimalInjective(a, b);
  }

  /** "CI #<run number> (commit <short sha>) on <link to owner/repo>". */
  function ActivityTitle(runNumber: nat, shortSha: string, owner: string, repo: string): (r: string)
    ensures "CI #" + Decimal(runNumber) + " (commit " + shortSha + ") on " <= r
    ensures r[|"CI #" + Decimal(runNumber) + " (commit " + shortSha + ") on "|..]
      == MarkdownLink(owner + "/" + repo, RepoUrl(owner, repo))
  {
    "CI #" + Decimal(runNumber) + " (commit " + shortSha + ") on "
      + MarkdownLink(owner + "/" + repo, RepoUrl(owner, repo))
  }

  /** The title names the run number and the short commit id. */
  lemma ActivityTitleNames(runNumber: nat, shortSha: string, owner: string, repo: string)
    ensures Contains(ActivityTitle(runNumber, shortSha, owner, repo), Decimal(runNumber))
    ensures Contains(ActivityTitle(runNumber, shortSha, owner, repo), shortSha)
  {
    var d := Decimal(runNumber);
    var link := MarkdownLink(owner + "/" + repo, RepoUrl(owner, repo));
    ContainsSelf(d);
    ContainsPrepend("CI #", d, d);
    ContainsAppend("CI #" + d, " (commit ", d);
    ContainsSelf(shortSha);
    ContainsPrepend("CI #" + d + " (commit ", shortSha, shortSha);
    ContainsAppend("CI #" + d + " (commit ", shortSha, d);
    ContainsAppend("CI #" + d + " (commit " + shortSha, ") on ", d);
    ContainsAppend("CI #" + d + " (commit " + shortSha, ") on ", shortSha);
    ContainsAppend("CI #" + d + " (commit " + shortSha + ") on ", link, d);
    ContainsAppend("CI #" + d + " (commit " + shortSha + ") on ", link, shortSha);
  }

  /** The values the cards are filled with (the "common variables" of the
      run). */
  datatype Notice = Notice(
    summary: string,
    colour: string,
    avatarUrl: string,
    deployedBy: string,
    dateTime: string,
    activityTitle: string,
    activitySubtitle: string,
    branch: string,
    workflowRunUrl: string,
    commitUrl: string)

  function MakeNotice(inp: Inputs, ctx: RunContext, commit: CommitInfo, actor: ActorInfo, now: string): (n: Notice)
    ensures n.summary == inp.summary && n.colour == inp.colour
    ensures n.avatarUrl == actor.avatarUrl
    ensures n.deployedBy == MarkdownLink(actor.displayName, actor.profileUrl)
    ensures n.dateTime == now && n.branch == ctx.ref
    ensures n.activityTitle == ActivityTitle(ctx.runNumber, ShortSha(ctx.sha), ctx.owner, ctx.repo)
    ensures n.activitySubtitle == "Committed by " + commit.committerName
    ensures n.workflowRunUrl == WorkflowRunUrl(ctx.owner, ctx.repo, ctx.runId)
    ensures n.commitUrl == commit.commitUrl
  {
    Notice(
      inp.summary,
      inp.colour,
      actor.avatarUrl,
      MarkdownLink(actor.displayName, actor.profileUrl),
      now,
      ActivityTitle(ctx.runNumber, ShortSha(ctx.sha), ctx.owner, ctx.repo),
      "Committed by " + commit.committerName,
      ctx.ref,
      WorkflowRunUrl(ctx.owner, ctx.repo, ctx.runId),
      commit.commitUrl)
  }

  // ---- The two cards ----

  function Wrap(msteamsWidth: Option<string>, body: seq<Element>, actions: Option<seq<Action>>): Message
  {
    Message(MessageType, [Attachment(AdaptiveCardContentType,
      AdaptiveCard(AdaptiveCardSchema, AdaptiveCardType, CardVersion, msteamsWidth, body, actions))])
  }

  function Headline(summary: string): Element
  {
    TextBlock(summary, Some("bolder"), Some("Large"), None, None, None)
  }

  /** The deployment card's first container: the headline and a row with the
      actor's avatar, the actor link and the creation time, in the given
      colour. */
  function DeploymentHeader(n: Notice): Element
  {
    Container(Some(n.colour), [Headline(n.summary), ActorRow(n)])
  }

  function ActorRow(n: Notice): Element
  {
    ColumnSet([
      Column("auto", [Image(n.avatarUrl, n.deployedBy, "small", "person")]),
      Column("stretch", [
        TextBlock(n.deployedBy, Some("bolder"), None, Some(true), None, None),
        TextBlock("Created " + n.dateTime, None, None, Some(true), Some("none"), Some(true))])])
  }

  /** The second, emphasised container: title, subtitle and the facts. */
  function DeploymentDetails(n: Notice): Element
  {
    Container(Some("emphasis"), [
      TextBlock(n.activityTitle, Some("bolder"), None, Some(true), None, None),
      TextBlock(n.activitySubtitle, None, None, Some(true), None, None),
      FactSet([
        Fact("Deployed by:", n.deployedBy),
        Fact("Deployed on:", n.dateTime),
        Fact("Branch:", n.branch)])])
  }

  /** The deployment card: the two containers and two buttons. */
  function DeploymentBody(n: Notice): (m: Message)
    ensures IsTeamsCard(m)
    ensures CardOf(m).msteamsWidth == Some("Full")
    ensures ActionCount(CardOf(m)) == 2
  {
    Wrap(Some("Full"), [DeploymentHeader(n), DeploymentDetails(n)], Some([
      OpenUrl("View Workflow Run", n.workflowRunUrl),
      OpenUrl("View Commit Changes", n.commitUrl)]))
  }

  /** The information card: one container holding the headline. */
  function InformationBody(summary: string): (m: Message)
    ensures IsTeamsCard(m)
    ensures CardOf(m).msteamsWidth == None && CardOf(m).actions == None
  {
    Wrap(None, [Container(None, [Headline(summary)])], None)
  }

  /** Both cards are a "message" with one Adaptive Card 1.0 attachment. */
  predicate IsTeamsCard(m: Message)
  {
    && m.messageType == MessageType
    && |m.attachments| == 1
    && m.attachments[0].contentType == AdaptiveCardContentType
    && m.attachments[0].content.schema == AdaptiveCardSchema
    && m.attachments[0].content.cardType == AdaptiveCardType
    && m.attachments[0].content.version == CardVersion
  }

  function CardOf(m: Message): AdaptiveCard
    requires |m.attachments| > 0
  {
    m.attachments[0].content
  }

  lemma {:induction false} DeploymentCardShape(n: Notice)
    ensures IsTeamsCard(DeploymentBody(n))
    ensures CardOf(DeploymentBody(n)).msteamsWidth == Some("Full")
    ensures Facts(CardOf(DeploymentBody(n)).body) == [
      Fact("Deployed by:", n.deployedBy),
      Fact("Deployed on:", n.dateTime),
      Fact("Branch:", n.branch)]
    ensures FactSetCount(CardOf(DeploymentBody(n)).body) == 1
    ensures ActionCount(CardOf(DeploymentBody(n))) == 2
    ensures CardOf(DeploymentBody(n)).actions == Some([
      OpenUrl("View Workflow Run", n.workflowRunUrl),
      OpenUrl("View Commit Changes", n.commitUrl)])
    ensures Texts(CardOf(DeploymentBody(n)).body) == [
      n.summary, n.deployedBy, "Created " + n.dateTime, n.activityTitle, n.activitySubtitle]
  {
    var header, row, details := DeploymentHeader(n), ActorRow(n), DeploymentDetails(n);
    QueriesOfTwo(header, details);
    QueriesOfTwo(Headline(n.summary), row);
    QueriesOfTwoColumns(row.columns[0], row.columns[1]);
    QueriesOfOne(row.columns[0].columnItems[0]);
    QueriesOfTwo(row.columns[1].columnItems[0], row.columns[1].columnItems[1]);
    QueriesOfThree(details.items[0], details.items[1], details.items[2]);
  }

  lemma {:induction false} InformationCardShape(summary: string)
    ensures IsTeamsCard(InformationBody(summary))
    ensures CardOf(InformationBody(summary)).msteamsWidth == None
    ensures CardOf(InformationBody(summary)).actions == None
    ensures ActionCount(CardOf(InformationBody(summary))) == 0
    ensures Facts(CardOf(InformationBody(summary)).body) == []
    ensures FactSetCount(CardOf(InformationBody(summary)).body) == 0
    ensures Texts(CardOf(InformationBody(summary)).body) == [summary]
  {
    QueriesOfOne(Container(None, [Headline(summary)]));
    QueriesOfOne(Headline(summary));
  }

  // ---- Body selection, dispatch and failure messages ----

  predicate IsKnownType(notificationType: string)
  {
    notificationType == "deployment" || notificationType == "information"
  }

  /** "deployment" selects the deployment card, "information" the
      information card, and any other value neither. */
  function SelectBody(notificationType: string, deployment: Message, information: Message): (r: Option<Message>)
    ensures r.Some? <==> IsKnownType(notificationType)
    ensures notificationType == "deployment" ==> r == Some(deployment)
    ensures notificationType == "information" ==> r == Some(information)
  {
    if notificationType == "deployment" then Some(deployment)
    else if notificationType == "information" then Some(information)
    else None
  }

  function InvalidTypeMessage(notificationType: string): (r: string)
    ensures Contains(r, notificationType)
  {
    var r := "Invalid notification type '" + notificationType + "'. Expected 'deployment' or 'information'.";
    ContainsInfix("Invalid notification type '", notificationType, "'. Expected 'deployment' or 'information'.");
    r
  }

  /** `response.ok`: the status is in the range 200 to 299, the "ok status"
      of the WHATWG Fetch Standard, section 2.2.3 (Statuses). */
  function IsOkStatus(status: nat): (ok: bool)
    ensures ok <==> status / 100 == 2
  {
    200 <= status <= 299
  }

  function StatusFailureMessage(resp: HttpResponse): (r: string)
    ensures Contains(r, Decimal(resp.status))
    ensures Contains(r, resp.statusText)
  {
    var head := "Failed to send notification. HTTP Status: ";
    var code := Decimal(resp.status);
    var r := head + code + " - " + resp.statusText;
    assert r == head + code + (" - " + resp.statusText);
    ContainsInfix(head, code, " - " + resp.statusText);
    assert r == (head + code + " - ") + resp.statusText + "";
    ContainsInfix(head + code + " - ", resp.statusText, "");
    r
  }

  /** `setFailed(error?.message ?? "Unknown error")`: a nullish message
      becomes "Unknown error"; any present message, even "", is kept. */
  function FailureMessage(message: JsString): (r: string)
    ensures message.None? ==> r == UnknownError
    ensures message.Some? ==> r == message.value
  {
    NullishOr(message, UnknownError)
  }

  /** A report for what was thrown inside the try. */
  function Caught(message: JsString): (r: Report)
    ensures r.Failed?
  {
    Failed(FailureMessage(message))
  }

  /** The outcome of a webhook response. */
  function Dispatch(resp: HttpResponse): (r: Report)
    ensures r.Sent? <==> IsOkStatus(resp.status)
    ensures r.Sent? ==> r.status == resp.status
    ensures r.Failed? ==> Contains(r.message, Decimal(resp.status)) && Contains(r.message, resp.statusText)
  {
    if IsOkStatus(resp.status) then Sent(resp.status)
    else Caught(Some(StatusFailureMessage(resp)))
  }

  // ---- The run ----

  /** The card a run with these replies posts, if its type is valid. */
  function BodyFor(inp: Inputs, ctx: RunContext, cd: CommitData, ad: ActorData, now: string): (r: Option<Message>)
    ensures r.Some? <==> IsKnownType(inp.notificationType)
    ensures r.Some? ==> IsTeamsCard(r.value)
    ensures r.Some? ==> (ActionCount(CardOf(r.value)) == 2 <==> inp.notificationType == "deployment")
  {
    var notice := MakeNotice(inp, ctx, ResolveCommit(cd), ResolveActor(ctx.actor, ad), now);
    SelectBody(inp.notificationType, DeploymentBody(notice), InformationBody(inp.summary))
  }

  /** One invocation: fetch the commit, look up the actor, build and select
      the card, post it and check the status; anything thrown on the way
      ends the run with `Failed`. */
  function Run(inp: Inputs, ctx: RunContext, now: string, env: Replies): (t: Trace)
    ensures 1 <= |t.requests| <= 3
    ensures t.requests[0] == GetCommit(ctx.owner, ctx.repo, ctx.sha)
    ensures t.report.Sent? ==>
      |t.requests| == 3 && t.requests[2].PostWebhook? && IsOkStatus(t.report.status)
  {
    var commitRequest := GetCommit(ctx.owner, ctx.repo, ctx.sha);
    match env.commit
    case Threw(m) => Trace([commitRequest], Caught(m))
    case Returned(cd) =>
      var actorRequest := ActorRequest(ctx.actor);
      match ActorReply(ctx.actor, env)
      case Threw(m) => Trace([commitRequest, actorRequest], Caught(m))
      case Returned(ad) =>
        match BodyFor(inp, ctx, cd, ad, now)
        case None =>
          Trace([commitRequest, actorRequest], Caught(Some(InvalidTypeMessage(inp.notificationType))))
        case Some(body) =>
          var requests := [commitRequest, actorRequest, PostWebhook(inp.webhookUri, body)];
          match env.webhook
          case Threw(m) => Trace(requests, Caught(m))
          case Returned(resp) => Trace(requests, Dispatch(resp))
  }

  predicate Posts(t: Trace)
  {
    exists i :: 0 <= i < |t.requests| && t.requests[i].PostWebhook?
  }
}
