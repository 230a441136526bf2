/** The order in which the `POST /build` handler checks its input, and what it
    sends and answers once every check has passed. */
module AppProperties {
  import opened Wrappers
  import opened PyStr
  import opened App

  /** The request's payload decodes to an object whose `ref` names `branch`. */
  predicate PushOf(req: Request, loads: string -> ParsedPayload, branch: string) {
    "payload" in req.form && loads(req.form["payload"]) == Parsed(Some(REF_PREFIX + branch))
  }

  /** An independent statement of when a build request goes out: every check
      of `_get_pushed_branch` passes, the branch is not ignored, and the job,
      token and server URL are all given. */
  predicate Forwardable(req: Request, loads: string -> ParsedPayload, ignoreBranches: seq<string>) {
    && "payload" in req.form
    && loads(req.form["payload"]).Parsed?
    && loads(req.form["payload"]).ref.Some?
    && StartsWith(loads(req.form["payload"]).ref.value, REF_PREFIX)
    && loads(req.form["payload"]).ref.value[|REF_PREFIX|..] !in ignoreBranches
    && "jenkins_job" in req.args && "jenkins_token" in req.args && "jenkins_url" in req.args
  }

  /** First check: without a `payload` field nothing else is looked at. */
  lemma NoPayloadFirst(req: Request, loads: string -> ParsedPayload, ignoreBranches: seq<string>, upstreamOk: bool)
    requires "payload" !in req.form
    ensures Build(req, loads, ignoreBranches, upstreamOk)
      == Outcome(None, Abort(NO_PAYLOAD_MESSAGE, DEFAULT_STATUS, map[]))
  {
  }

  /** Second check: a payload that does not decode. */
  lemma UnparsablePayloadSecond(req: Request, loads: string -> ParsedPayload, ignoreBranches: seq<string>, upstreamOk: bool)
    requires "payload" in req.form && loads(req.form["payload"]) == ParseFailed
    ensures Build(req, loads, ignoreBranches, upstreamOk)
      == Outcome(None, Abort(BAD_PAYLOAD_MESSAGE, DEFAULT_STATUS, map[]))
  {
  }

  /** Third check: a payload without a `ref`. */
  lemma NoRefThird(req: Request, loads: string -> ParsedPayload, ignoreBranches: seq<string>, upstreamOk: bool)
    requires "payload" in req.form && loads(req.form["payload"]) == Parsed(None)
    ensures Build(req, loads, ignoreBranches, upstreamOk)
      == Outcome(None, Abort(NO_REF_MESSAGE, DEFAULT_STATUS, map[]))
  {
  }

  /** Fourth check: a `ref` outside `refs/heads/` is refused with a 400 that
      names the prefix, and no build request is sent. */
  lemma InvalidRefFourth(req: Request, loads: string -> ParsedPayload, ignoreBranches: seq<string>, upstreamOk: bool, ref: string)
    requires "payload" in req.form && loads(req.form["payload"]) == Parsed(Some(ref))
    requires !StartsWith(ref, REF_PREFIX)
    ensures Build(req, loads, ignoreBranches, upstreamOk)
      == Outcome(None, Abort(InvalidRefMessage(), DEFAULT_STATUS, map[]))
    ensures Contains(Build(req, loads, ignoreBranches, upstreamOk).response.body["message"].s, REF_PREFIX)
  {
  }

  /** Fifth check: an ignored branch is answered with 200 and no build request,
      whatever the query arguments are, missing ones included. */
  lemma IgnoredBranchFifth(req: Request, loads: string -> ParsedPayload, ignoreBranches: seq<string>, upstreamOk: bool, branch: string)
    requires PushOf(req, loads, branch) && branch in ignoreBranches
    ensures Build(req, loads, ignoreBranches, upstreamOk) == Outcome(None, Jsonify(IgnoringMessage(branch)))
    ensures Build(req, loads, ignoreBranches, upstreamOk).response.status == 200
  {
  }

  /** The query arguments come last, `jenkins_job` first. */
  lemma MissingJobSixth(req: Request, loads: string -> ParsedPayload, ignoreBranches: seq<string>, upstreamOk: bool, branch: string)
    requires PushOf(req, loads, branch) && branch !in ignoreBranches
    requires "jenkins_job" !in req.args
    ensures Build(req, loads, ignoreBranches, upstreamOk)
      == Outcome(None, Abort(MissingArgMessage("jenkins_job"), DEFAULT_STATUS, map[]))
  {
  }

  /** Then `jenkins_token`. */
  lemma MissingTokenSeventh(req: Request, loads: string -> ParsedPayload, ignoreBranches: seq<string>, upstreamOk: bool, branch: string)
    requires PushOf(req, loads, branch) && branch !in ignoreBranches
    requires "jenkins_job" in req.args && "jenkins_token" !in req.args
    ensures Build(req, loads, ignoreBranches, upstreamOk)
      == Outcome(None, Abort(MissingArgMessage("jenkins_token"), DEFAULT_STATUS, map[]))
  {
  }

  /** Then `jenkins_url`; `jenkins_param_key` has a default and is never missing. */
  lemma MissingUrlEighth(req: Request, loads: string -> ParsedPayload, ignoreBranches: seq<string>, upstreamOk: bool, branch: string)
    requires PushOf(req, loads, branch) && branch !in ignoreBranches
    requires "jenkins_job" in req.args && "jenkins_token" in req.args && "jenkins_url" !in req.args
    ensures Build(req, loads, ignoreBranches, upstreamOk)
      == Outcome(None, Abort(MissingArgMessage("jenkins_url"), DEFAULT_STATUS, map[]))
  {
  }

  /** Once every check passes: one build request to
      `<jenkins_url>/<jenkins_job>/buildWithParameters` with the token and the
      branch under the parameter key, answered 200 or 500 as the server did. */
  lemma SubmittedBuild(req: Request, loads: string -> ParsedPayload, ignoreBranches: seq<string>, upstreamOk: bool, branch: string)
    requires PushOf(req, loads, branch) && branch !in ignoreBranches
    requires "jenkins_job" in req.args && "jenkins_token" in req.args && "jenkins_url" in req.args
    ensures Build(req, loads, ignoreBranches, upstreamOk).call
      == Some(Call(req.args["jenkins_url"] + "/" + req.args["jenkins_job"] + "/buildWithParameters",
                   BuildParams(req.args["jenkins_token"], ParamKey(req.args), branch)))
    ensures Build(req, loads, ignoreBranches, upstreamOk).response
      == if upstreamOk then Jsonify(SUBMITTED_MESSAGE) else Abort(UPSTREAM_ERROR_MESSAGE, 500, map[])
  {
  }

  /** The parameters sent: the branch under the key, and the token under
      `token` unless the key is itself `token`, in which case the branch wins. */
  lemma SubmittedParams(req: Request, loads: string -> ParsedPayload, ignoreBranches: seq<string>, upstreamOk: bool, branch: string)
    requires PushOf(req, loads, branch) && branch !in ignoreBranches
    requires "jenkins_job" in req.args && "jenkins_token" in req.args && "jenkins_url" in req.args
    ensures Build(req, loads, ignoreBranches, upstreamOk).call.Some?
    ensures "jenkins_param_key" !in req.args ==>
      Build(req, loads, ignoreBranches, upstreamOk).call.value.params
        == map["token" := req.args["jenkins_token"], "BRANCH" := branch]
    ensures ParamKey(req.args) == "token" ==>
      Build(req, loads, ignoreBranches, upstreamOk).call.value.params == map["token" := branch]
  {
  }

  /** A build request goes out exactly when every check passes. */
  lemma CallIffForwardable(req: Request, loads: string -> ParsedPayload, ignoreBranches: seq<string>, upstreamOk: bool)
    ensures Build(req, loads, ignoreBranches, upstreamOk).call.Some? <==> Forwardable(req, loads, ignoreBranches)
  {
  }

  /** An answer of 200 without a build request happens only for an ignored
      branch; every other answer without one is a 400. */
  lemma ResponseStatuses(req: Request, loads: string -> ParsedPayload, ignoreBranches: seq<string>, upstreamOk: bool)
    ensures var o := Build(req, loads, ignoreBranches, upstreamOk);
      o.call.None? && o.response.status == 200 ==>
        exists branch :: PushOf(req, loads, branch) && branch in ignoreBranches
  {
  }

  /** The branch of a ref that is exactly `refs/heads/` is empty, and an
      ignore list read from the environment never holds it. */
  lemma EmptyBranchNeverIgnored(environ: map<string, string>)
    ensures "" !in IgnoreBranches(environ)
  {
  }
}
