/** The decision logic of the relay's `POST /build` handler (app.py), with the
    web framework, the JSON decoder and the outbound HTTP call taken out.

    A request is the pair of its form fields and its query arguments. Decoding
    the `payload` field is a parameter `loads`, the answer of the build server
    is a parameter `upstreamOk`, and the ignore list is the value the module
    computes once from the environment. `abort`, which raises in the source,
    returns its response here as the `Err` of a `Result`. */
module App {
  import opened Wrappers
  import opened PyStr

  const REF_PREFIX := "refs/heads/"
  const DEFAULT_STATUS := 400
  const DEFAULT_PARAM_KEY := "BRANCH"

  const NO_PAYLOAD_MESSAGE := "No \"payload\" POST parameter supplied"
  const BAD_PAYLOAD_MESSAGE := "Error encountered when parsing payload JSON"
  const NO_REF_MESSAGE := "No \"ref\" supplied in payload"
  const SUBMITTED_MESSAGE := "Submitted request for build"
  const UPSTREAM_ERROR_MESSAGE := "Error communicating with Jenkins"

  /** The values a response body holds. */
  datatype Json = JNum(n: int) | JStr(s: string)

  /** An HTTP response: its status code and its JSON object body. */
  datatype Response = Response(status: int, body: map<string, Json>)

  /** What `json.loads(payload)` followed by `payload.get('ref')` yields: a
      decoding failure, or an object whose `ref` is a string or absent/null. */
  datatype ParsedPayload = ParseFailed | Parsed(ref: Option<string>)

  /** The inbound request: `request.form` and `request.args`. */
  datatype Request = Request(form: map<string, string>, args: map<string, string>)

  /** The outbound build request `requests.get(url, data=params)`. */
  datatype Call = Call(url: string, params: map<string, string>)

  /** What the handler does before any network traffic: answer at once, or
      submit a build request. */
  datatype Step = Reply(response: Response) | Submit(call: Call)

  /** The whole exchange: the build request made, if any, and the response. */
  datatype Outcome = Outcome(call: Option<Call>, response: Response)

  /** Every response the handler produces carries `status` and `message`
      fields, and its `status` field is its HTTP status. */
  predicate WellFormed(r: Response) {
    && "status" in r.body && r.body["status"] == JNum(r.status)
    && "message" in r.body && r.body["message"].JStr?
  }

  predicate Contains(s: string, part: string) {
    exists i :: 0 <= i <= |s| && part <= s[i..]
  }

  /** The `IGNORE_BRANCHES` comprehension: the pieces of `env` split on ','
      with the empty ones dropped. */
  function ParseIgnoreList(env: string): (names: seq<string>)
    ensures forall i :: 0 <= i < |names| ==> names[i] != ""
    ensures forall b :: b in names <==> b != "" && b in Split(env, ',')
  {
    NonEmpty(Split(env, ','))
  }

  /** The pieces that are not empty, in their order. */
  function NonEmpty(pieces: seq<string>): (kept: seq<string>)
    ensures forall i :: 0 <= i < |kept| ==> kept[i] != ""
    ensures forall b :: b in kept <==> b in pieces && b != ""
    ensures multiset(kept) == multiset(pieces)[[] := 0]
  {
    if pieces == [] then []
    else
      assert pieces == [pieces[0]] + pieces[1..];
      if pieces[0] == "" then NonEmpty(pieces[1..])
      else [pieces[0]] + NonEmpty(pieces[1..])
  }

  /** `environ.get('IGNORE_BRANCHES', '')`, parsed. */
  function IgnoreBranches(environ: map<string, string>): (names: seq<string>)
    ensures "IGNORE_BRANCHES" !in environ ==> names == []
    ensures "IGNORE_BRANCHES" in environ ==> names == ParseIgnoreList(environ["IGNORE_BRANCHES"])
  {
    ParseIgnoreList(if "IGNORE_BRANCHES" in environ then environ["IGNORE_BRANCHES"] else "")
  }

  /** `abort(message, status, **data)`: the response whose body is `data`
      with `status` and `message` set over whatever `data` held for them. */
  function Abort(message: string, status: int, data: map<string, Json>): (r: Response)
    ensures r.status == status && WellFormed(r)
    ensures r.body["message"] == JStr(message)
    ensures r.body.Keys == data.Keys + {"status", "message"}
    ensures forall k :: k in data && k != "status" && k != "message" ==> r.body[k] == data[k]
  {
    Response(status, data + map["status" := JNum(status), "message" := JStr(message)])
  }

  /** `jsonify(status=200, message=message)`: HTTP status 200. */
  function Jsonify(message: string): (r: Response)
    ensures r.status == 200 && WellFormed(r)
    ensures r.body.Keys == {"status", "message"} && r.body["message"] == JStr(message)
  {
    Response(200, map["status" := JNum(200), "message" := JStr(message)])
  }

  /** `'No "{0}" query parameter supplied'.format(name)` */
  function MissingArgMessage(name: string): (m: string)
    ensures Contains(m, name)
  {
    var head, tail := "No \"", "\" query parameter supplied";
    PrefixConcat(head, name + tail);
    assert head + name + tail == head + (name + tail);
    assert name <= (head + (name + tail))[|head|..];
    head + name + tail
  }

  /** The invalid-ref message with `REF_PREFIX` formatted in: since the prefix
      ends in '/' and the template adds another, the slash is doubled. */
  function InvalidRefMessage(): (m: string)
    ensures Contains(m, REF_PREFIX)
    ensures m == "Invalid format for \"ref\" in payload: should be \"refs/heads//BRANCHNAME\""
  {
    var head, tail := "Invalid format for \"ref\" in payload: should be \"", "/BRANCHNAME\"";
    PrefixConcat(head, REF_PREFIX + tail);
    assert head + REF_PREFIX + tail == head + (REF_PREFIX + tail);
    assert REF_PREFIX <= (head + (REF_PREFIX + tail))[|head|..];
    var m := head + REF_PREFIX + tail;
    var expected := "Invalid format for \"ref\" in payload: should be \"refs/heads//BRANCHNAME\"";
    assert |m| == |expected|;
    assert forall i :: 0 <= i < |m| ==> m[i] == expected[i];
    m
  }

  /** `'Ignoring push on {0}'.format(branch)` */
  function IgnoringMessage(branch: string): (m: string)
    ensures StartsWith(m, "Ignoring push on ")
    ensures m[|"Ignoring push on "|..] == branch
  {
    PrefixConcat("Ignoring push on ", branch);
    "Ignoring push on " + branch
  }

  /** `jenkins_param_key`, or `BRANCH` when it is not given. */
  function ParamKey(args: map<string, string>): string {
    if "jenkins_param_key" in args then args["jenkins_param_key"] else DEFAULT_PARAM_KEY
  }

  /** The first of the required query arguments that is missing. */
  function FirstMissingArg(args: map<string, string>): string {
    if "jenkins_job" !in args then "jenkins_job"
    else if "jenkins_token" !in args then "jenkins_token"
    else "jenkins_url"
  }

  /** `require_arg(name, default)`: the query argument, else the default, else
      a 400 naming the parameter. */
  function RequireArg(args: map<string, string>, name: string, default: Option<string>): (r: Result<string, Response>)
    ensures r.Ok? <==> name in args || default.Some?
    ensures name in args ==> r == Ok(args[name])
    ensures name !in args && default.Some? ==> r == Ok(default.value)
    ensures r.Err? ==> r.error == Abort(MissingArgMessage(name), DEFAULT_STATUS, map[])
  {
    if name in args then Ok(args[name])
    else if default.Some? then Ok(default.value)
    else Err(Abort(MissingArgMessage(name), DEFAULT_STATUS, map[]))
  }

  /** The prefix test and slice at the end of `_get_pushed_branch`. */
  function ExtractBranch(ref: string): (r: Result<string, Response>)
    ensures r.Ok? <==> StartsWith(ref, REF_PREFIX)
    ensures r.Ok? ==> REF_PREFIX + r.value == ref
    ensures r.Err? ==> r.error == Abort(InvalidRefMessage(), DEFAULT_STATUS, map[])
  {
    if !StartsWith(ref, REF_PREFIX) then Err(Abort(InvalidRefMessage(), DEFAULT_STATUS, map[]))
    else
      PrefixSlice(ref, REF_PREFIX);
      Ok(ref[|REF_PREFIX|..])
  }

  /** `_get_pushed_branch`: the payload field, its decoding, its `ref`, and the
      branch named by that `ref`, checked in that order. */
  function GetPushedBranch(form: map<string, string>, loads: string -> ParsedPayload): (r: Result<string, Response>)
    ensures r.Ok? <==>
      && "payload" in form
      && loads(form["payload"]).Parsed?
      && loads(form["payload"]).ref.Some?
      && StartsWith(loads(form["payload"]).ref.value, REF_PREFIX)
    ensures r.Ok? ==> REF_PREFIX + r.value == loads(form["payload"]).ref.value
    ensures r.Err? ==> r.error.status == DEFAULT_STATUS && WellFormed(r.error)
  {
    if "payload" !in form then Err(Abort(NO_PAYLOAD_MESSAGE, DEFAULT_STATUS, map[]))
    else
      var payload := loads(form["payload"]);
      if payload.ParseFailed? then Err(Abort(BAD_PAYLOAD_MESSAGE, DEFAULT_STATUS, map[]))
      else if payload.ref.None? then Err(Abort(NO_REF_MESSAGE, DEFAULT_STATUS, map[]))
      else ExtractBranch(payload.ref.value)
  }

  /** `'{jenkins_url}/{jenkins_job}/buildWithParameters'` */
  function BuildUrl(jenkinsUrl: string, job: string): (url: string)
    ensures StartsWith(url, jenkinsUrl + "/")
    ensures url[|jenkinsUrl| + 1..] == job + "/buildWithParameters"
  {
    PrefixConcat(jenkinsUrl + "/", job + "/buildWithParameters");
    assert jenkinsUrl + "/" + job + "/buildWithParameters" == (jenkinsUrl + "/") + (job + "/buildWithParameters");
    jenkinsUrl + "/" + job + "/buildWithParameters"
  }

  /** `{'token': token, key: branch}`: when `key` is `'token'` the later
      entry, the branch, is the one kept. */
  function BuildParams(token: string, key: string, branch: string): (params: map<string, string>)
    ensures params.Keys == {"token", key}
    ensures params[key] == branch
    ensures key != "token" ==> params["token"] == token
  {
    map["token" := token][key := branch]
  }

  /** Lines 42-49 of `build`: the four query arguments, required in order, and
      the build request made from them. */
  function Submission(args: map<string, string>, branch: string): (r: Result<Call, Response>)
    ensures r.Ok? <==> "jenkins_job" in args && "jenkins_token" in args && "jenkins_url" in args
    ensures r.Ok? ==> r.value == Call(BuildUrl(args["jenkins_url"], args["jenkins_job"]),
                                      BuildParams(args["jenkins_token"], ParamKey(args), branch))
    ensures r.Err? ==> r.error == Abort(MissingArgMessage(FirstMissingArg(args)), DEFAULT_STATUS, map[])
    ensures r.Err? ==> r.error.status == DEFAULT_STATUS && WellFormed(r.error)
  {
    var job :- RequireArg(args, "jenkins_job", None);
    var token :- RequireArg(args, "jenkins_token", None);
    var jenkinsUrl :- RequireArg(args, "jenkins_url", None);
    // with a default, `require_arg` cannot fail
    var key := RequireArg(args, "jenkins_param_key", Some(DEFAULT_PARAM_KEY)).Extract();
    Ok(Call(BuildUrl(jenkinsUrl, job), BuildParams(token, key, branch)))
  }

  /** `build` up to the outbound call: the pushed branch, the ignore list, then
      the build request. */
  function Plan(req: Request, loads: string -> ParsedPayload, ignoreBranches: seq<string>): (s: Step)
    ensures s.Reply? ==> WellFormed(s.response)
    ensures GetPushedBranch(req.form, loads).Err? ==> s == Reply(GetPushedBranch(req.form, loads).error)
    ensures GetPushedBranch(req.form, loads).Ok? && GetPushedBranch(req.form, loads).value in ignoreBranches ==>
      s == Reply(Jsonify(IgnoringMessage(GetPushedBranch(req.form, loads).value)))
    ensures s.Submit? <==>
      GetPushedBranch(req.form, loads).Ok? && GetPushedBranch(req.form, loads).value !in ignoreBranches
      && Submission(req.args, GetPushedBranch(req.form, loads).value).Ok?
  {
    match GetPushedBranch(req.form, loads)
    case Err(e) => Reply(e)
    case Ok(branch) =>
      if branch in ignoreBranches then Reply(Jsonify(IgnoringMessage(branch)))
      else
        match Submission(req.args, branch)
        case Err(e) => Reply(e)
        case Ok(call) => Submit(call)
  }

  /** The response once the build request has been sent, from `res.ok`. */
  function UpstreamReply(ok: bool): (r: Response)
    ensures WellFormed(r)
    ensures r.status == (if ok then 200 else 500)
  {
    if ok then Jsonify(SUBMITTED_MESSAGE)
    else Abort(UPSTREAM_ERROR_MESSAGE, 500, map[])
  }

  /** The `POST /build` handler. `upstreamOk` is `res.ok` of the one build
      request the handler sends; it is consulted only when one is sent. */
  function Build(req: Request, loads: string -> ParsedPayload, ignoreBranches: seq<string>, upstreamOk: bool): (o: Outcome)
    ensures WellFormed(o.response)
    ensures o.call.Some? <==> Plan(req, loads, ignoreBranches).Submit?
    ensures o.call.Some? ==> o.response.status == (if upstreamOk then 200 else 500)
    ensures o.call.None? ==> o.response.status in {200, 400}
  {
    match Plan(req, loads, ignoreBranches)
    case Reply(r) => Outcome(None, r)
    case Submit(call) => Outcome(Some(call), UpstreamReply(upstreamOk))
  }

  // Properties of the pieces

  lemma ParseIgnoreListOfEmpty()
    ensures ParseIgnoreList("") == []
  {
  }

  lemma ParseIgnoreListDropsEmptyPieces()
    ensures ParseIgnoreList("a,,b") == ["a", "b"]
  {
    SplitOfExample();
    NonEmptyOfExample();
  }

  lemma SplitOfExample()
    ensures Split("a,,b", ',') == ["a", "", "b"]
  {
    assert "a,,b"[1..] == ",,b" && ",,b"[1..] == ",b" && ",b"[1..] == "b" && "b"[1..] == "";
    assert Split("", ',') == [""];
    assert ['b'] + "" == "b" && ['a'] + "" == "a";
    assert Split("b", ',') == ["b"];
    assert Split(",b", ',') == ["", "b"];
    assert Split(",,b", ',') == ["", "", "b"];
  }

  lemma NonEmptyOfExample()
    ensures NonEmpty(["a", "", "b"]) == ["a", "b"]
  {
    assert ["a", "", "b"][1..] == ["", "b"] && ["", "b"][1..] == ["b"] && ["b"][1..] == [];
    assert NonEmpty(["b"]) == ["b"];
    assert NonEmpty(["", "b"]) == ["b"];
  }

  lemma {:induction false} NonEmptyKeepsNonEmpty(pieces: seq<string>)
    requires forall i :: 0 <= i < |pieces| ==> pieces[i] != ""
    ensures NonEmpty(pieces) == pieces
  {
    if pieces != [] {
      NonEmptyKeepsNonEmpty(pieces[1..]);
      assert [pieces[0]] + pieces[1..] == pieces;
    }
  }

  /** A comma-separated list of non-empty, comma-free branch names is read
      back as exactly that list. */
  lemma ParseIgnoreListOfJoin(names: seq<string>)
    requires |names| >= 1
    requires forall i :: 0 <= i < |names| ==> names[i] != "" && ',' !in names[i]
    ensures ParseIgnoreList(Join(names, ',')) == names
  {
    SplitJoin(names, ',');
    NonEmptyKeepsNonEmpty(names);
  }

  /** Extracting from `REF_PREFIX + branch` gives back exactly `branch`. */
  lemma ExtractBranchOfPrefixed(branch: string)
    ensures ExtractBranch(REF_PREFIX + branch) == Ok(branch)
  {
  }

  /** Different parameters give different missing-argument messages, so the
      message identifies the parameter. */
  lemma MissingArgMessageInjective(name: string, other: string)
    requires MissingArgMessage(name) == MissingArgMessage(other)
    ensures name == other
  {
    var head := "No \"";
    var tail := "\" query parameter supplied";
    var m := MissingArgMessage(name);
    assert m == head + name + tail;
    assert MissingArgMessage(other) == head + other + tail;
    assert m[|head|..|m| - |tail|] == name;
    assert MissingArgMessage(other)[|head|..|m| - |tail|] == other;
  }

}
