/** Properties of a whole run: which requests it makes, in which order, and
    which report it ends with. */
module RunProperties {
  import opened Wrappers
  import opened Text
  import opened Card
  import opened Notifier

  /** The body of the first webhook post among some requests, if any. */
  function PostedBodyOf(rs: seq<Request>): (r: Option<Message>)
    ensures r.Some? <==> exists i :: 0 <= i < |rs| && rs[i].PostWebhook?
    ensures r.Some? ==> exists i :: 0 <= i < |rs| && rs[i].PostWebhook? && rs[i].body == r.value
  {
    if rs == [] then None
    else if rs[0].PostWebhook? then Some(rs[0].body)
    else
      var r := PostedBodyOf(rs[1..]);
      assert forall i :: 0 < i < |rs| ==> rs[i] == rs[1..][i - 1];
      r
  }

  function PostedBody(t: Trace): (r: Option<Message>)
    ensures r.Some? <==> Posts(t)
  {
    PostedBodyOf(t.requests)
  }

  /** Every run first fetches the commit, then (if that returned) looks up
      the actor, and at most posts once, last, to the configured webhook. */
  lemma RunRequestOrder(inp: Inputs, ctx: RunContext, now: string, env: Replies)
    ensures var t := Run(inp, ctx, now, env);
      && 1 <= |t.requests| <= 3
      && t.requests[0] == GetCommit(ctx.owner, ctx.repo, ctx.sha)
      && (|t.requests| >= 2 <==> env.commit.Returned?)
      && (|t.requests| >= 2 ==> t.requests[1] == ActorRequest(ctx.actor))
      && (|t.requests| == 3 ==> t.requests[2].PostWebhook? && t.requests[2].uri == inp.webhookUri)
      && (forall i :: 0 <= i < |t.requests| && t.requests[i].PostWebhook? ==> i == 2)
  {
  }

  /** A run makes only the lookup its actor id selects: a bot actor's run
      does not depend on the user lookup, a human actor's run does not
      depend on the app lookup. */
  lemma RunUsesOneLookup(inp: Inputs, ctx: RunContext, now: string, env: Replies,
                         app: Reply<AppData>, user: Reply<UserData>)
    ensures IsBotActor(ctx.actor) ==> Run(inp, ctx, now, env) == Run(inp, ctx, now, env.(user := user))
    ensures !IsBotActor(ctx.actor) ==> Run(inp, ctx, now, env) == Run(inp, ctx, now, env.(app := app))
  {
  }

  /** A failed commit lookup ends the run with that error, whatever the
      notification type. */
  lemma RunCommitLookupFails(inp: Inputs, ctx: RunContext, now: string, env: Replies)
    requires env.commit.Threw?
    ensures Run(inp, ctx, now, env) ==
      Trace([GetCommit(ctx.owner, ctx.repo, ctx.sha)], Failed(FailureMessage(env.commit.message)))
  {
  }

  /** A failed actor lookup ends the run with that error before any post. */
  lemma RunActorLookupFails(inp: Inputs, ctx: RunContext, now: string, env: Replies)
    requires env.commit.Returned?
    requires IsBotActor(ctx.actor) ==> env.app.Threw?
    requires !IsBotActor(ctx.actor) ==> env.user.Threw?
    ensures !Posts(Run(inp, ctx, now, env))
    ensures Run(inp, ctx, now, env).report == Failed(FailureMessage(
      if IsBotActor(ctx.actor) then env.app.message else env.user.message))
  {
  }

  /** An unknown notification type fails with a message naming it, and the
      webhook is never called. */
  lemma RunInvalidType(inp: Inputs, ctx: RunContext, now: string, env: Replies)
    requires env.commit.Returned? && ActorReply(ctx.actor, env).Returned?
    requires !IsKnownType(inp.notificationType)
    ensures !Posts(Run(inp, ctx, now, env))
    ensures Run(inp, ctx, now, env).report.Failed?
    ensures Contains(Run(inp, ctx, now, env).report.message, inp.notificationType)
  {
    var t := Run(inp, ctx, now, env);
    assert t.report == Failed(InvalidTypeMessage(inp.notificationType));
  }

  /** Only a run with a known type whose lookups both returned posts. */
  lemma RunPostsOnlyKnownType(inp: Inputs, ctx: RunContext, now: string, env: Replies)
    ensures Posts(Run(inp, ctx, now, env)) ==>
      && env.commit.Returned?
      && ActorReply(ctx.actor, env).Returned?
      && IsKnownType(inp.notificationType)
  {
    RunRequestOrder(inp, ctx, now, env);
  }

  /** The run reports success exactly when both lookups returned, the type
      is known, the post returned, and its status is ok; the status reported
      is the response's. */
  lemma RunSentIff(inp: Inputs, ctx: RunContext, now: string, env: Replies)
    ensures Run(inp, ctx, now, env).report.Sent? <==>
      && env.commit.Returned?
      && ActorReply(ctx.actor, env).Returned?
      && IsKnownType(inp.notificationType)
      && env.webhook.Returned?
      && IsOkStatus(env.webhook.value.status)
    ensures Run(inp, ctx, now, env).report.Sent? ==>
      Run(inp, ctx, now, env).report.status == env.webhook.value.status
  {
    if env.commit.Returned? && ActorReply(ctx.actor, env).Returned? {
      var ad := ActorReply(ctx.actor, env).value;
      var body := BodyFor(inp, ctx, env.commit.value, ad, now);
      assert body.Some? <==> IsKnownType(inp.notificationType);
    }
  }

  /** A posted card answered with a status outside 200-299 fails with a
      message carrying the status code and the status text. */
  lemma RunBadStatus(inp: Inputs, ctx: RunContext, now: string, env: Replies)
    requires env.commit.Returned? && ActorReply(ctx.actor, env).Returned?
    requires IsKnownType(inp.notificationType)
    requires env.webhook.Returned? && !IsOkStatus(env.webhook.value.status)
    ensures Run(inp, ctx, now, env).report.Failed?
    ensures Contains(Run(inp, ctx, now, env).report.message, Decimal(env.webhook.value.status))
    ensures Contains(Run(inp, ctx, now, env).report.message, env.webhook.value.statusText)
  {
  }

  /** Something thrown without a message is reported as "Unknown error"; a
      present message, even the empty one, is reported as it is. */
  lemma RunThrownMessage(inp: Inputs, ctx: RunContext, now: string, env: Replies)
    requires env.commit.Threw?
    ensures env.commit.message.None? ==> Run(inp, ctx, now, env).report == Failed(UnknownError)
    ensures env.commit.message == Some("") ==> Run(inp, ctx, now, env).report == Failed("")
  {
  }

  /** A POST that throws (the webhook `fetch` rejects) ends the run with
      that error's message, after the post was issued. */
  lemma RunWebhookThrows(inp: Inputs, ctx: RunContext, now: string, env: Replies)
    requires env.commit.Returned? && ActorReply(ctx.actor, env).Returned?
    requires IsKnownType(inp.notificationType)
    requires env.webhook.Threw?
    ensures Posts(Run(inp, ctx, now, env))
    ensures Run(inp, ctx, now, env).report == Failed(FailureMessage(env.webhook.message))
  {
    var t := Run(inp, ctx, now, env);
    assert t.requests[2].PostWebhook?;
  }

  /** A "deployment" run posts the deployment card: the three facts in
      order, with the actor link, the timestamp and the ref, and the two
      buttons to the workflow run and the commit. */
  lemma RunDeploymentCard(inp: Inputs, ctx: RunContext, now: string, env: Replies)
    requires env.commit.Returned? && ActorReply(ctx.actor, env).Returned?
    requires inp.notificationType == "deployment"
    ensures PostedBody(Run(inp, ctx, now, env)).Some?
    ensures var m := PostedBody(Run(inp, ctx, now, env)).value;
      var actor := ResolveActor(ctx.actor, ActorReply(ctx.actor, env).value);
      && IsTeamsCard(m)
      && Facts(CardOf(m).body) == [
           Fact("Deployed by:", MarkdownLink(actor.displayName, actor.profileUrl)),
           Fact("Deployed on:", now),
           Fact("Branch:", ctx.ref)]
      && CardOf(m).actions == Some([
           OpenUrl("View Workflow Run", WorkflowRunUrl(ctx.owner, ctx.repo, ctx.runId)),
           OpenUrl("View Commit Changes", env.commit.value.htmlUrl)])
      && Texts(CardOf(m).body) == [
           inp.summary,
           MarkdownLink(actor.displayName, actor.profileUrl),
           "Created " + now,
           ActivityTitle(ctx.runNumber, ShortSha(ctx.sha), ctx.owner, ctx.repo),
           "Committed by " + ResolveCommit(env.commit.value).committerName]
    ensures PostedBody(Run(inp, ctx, now, env)) == Some(DeploymentBody(MakeNotice(inp, ctx,
      ResolveCommit(env.commit.value), ResolveActor(ctx.actor, ActorReply(ctx.actor, env).value), now)))
  {
    var cd := env.commit.value;
    var ad := ActorReply(ctx.actor, env).value;
    var notice := MakeNotice(inp, ctx, ResolveCommit(cd), ResolveActor(ctx.actor, ad), now);
    DeploymentCardShape(notice);
    var t := Run(inp, ctx, now, env);
    assert t.requests[2] == PostWebhook(inp.webhookUri, DeploymentBody(notice));
  }

  /** An "information" run posts the information card: only the summary,
      no facts and no buttons. */
  lemma RunInformationCard(inp: Inputs, ctx: RunContext, now: string, env: Replies)
    requires env.commit.Returned? && ActorReply(ctx.actor, env).Returned?
    requires inp.notificationType == "information"
    ensures PostedBody(Run(inp, ctx, now, env)) == Some(InformationBody(inp.summary))
    ensures var c := CardOf(InformationBody(inp.summary));
      && c.actions == None
      && Facts(c.body) == []
      && FactSetCount(c.body) == 0
      && Texts(c.body) == [inp.summary]
  {
    InformationCardShape(inp.summary);
    var t := Run(inp, ctx, now, env);
    assert t.requests[2] == PostWebhook(inp.webhookUri, InformationBody(inp.summary));
  }

  /** A 500 "server error" reply fails naming both; a 204 reply succeeds. */
  lemma ServerErrorExample(resp: HttpResponse)
    requires resp == HttpResponse(500, "server error")
    ensures Dispatch(resp).Failed?
    ensures Contains(Dispatch(resp).message, "500")
    ensures Contains(Dispatch(resp).message, "server error")
  {
    assert Decimal(resp.status) == "500";
  }

  lemma NoContentExample(resp: HttpResponse)
    requires resp == HttpResponse(204, "No Content")
    ensures Dispatch(resp) == Sent(204)
  {
  }
}
