# github-jenkins-trigger: the build-request relay, in Dafny

The relay receives a push notification from a version-control host. It reads
the pushed branch from the `ref` of the form-encoded JSON `payload`. It skips
branches named in the `IGNORE_BRANCHES` environment variable. Otherwise it sends
a build request to a Jenkins server, with the server, job, token and parameter
key all taken from the query string. Every answer the handler gives itself is
a JSON object whose `status` field is also the HTTP status. The exceptions are
the cases where the handler raises: a failed build request (see
`App.UpstreamReply` under "## Left out") and a `requests.get` that raises.
In both, Flask sends its own generic 500.

This project models the decision logic of `app.py` without Flask and without
the network:

- `wrappers.dfy` (module `Wrappers`): `Option` and `Result`. `abort`, which
  raises in Python, returns its response as the `Err` of a `Result`.
- `pystr.dfy` (module `PyStr`): the Python string operations the handler uses.
  These are `str.startswith`, slicing past a prefix, and `str.split(',')`.
  `Split` is pinned down by its inverse `Join` (Python's `','.join`), with
  round-trip lemmas in both directions.
- `app.dfy` (module `App`): `REF_PREFIX`, the `IGNORE_BRANCHES` comprehension,
  `abort`, `require_arg`, `_get_pushed_branch` and `build`. `build` is split at
  the outbound call: `Plan` decides whether to reply at once or to send a
  build request, and `Build` adds the reply to that request. JSON decoding of
  the payload is a parameter `loads: string -> ParsedPayload`. The `ok` of the
  Jenkins response is a parameter `upstreamOk`.
- `app_properties.dfy` (module `AppProperties`): the order of the checks. Each
  check has one lemma stating that, once every earlier check has passed, a
  failure of this check decides the answer and no build request is sent. Two
  more lemmas state what is sent once all checks pass, and exactly when a
  build request goes out.

Facts about the code that the model keeps:

- The outbound call has no timeout (app.py:52).
- `jenkins_url` is read from the query string (app.py:44).
- The URL is `<jenkins_url>/<jenkins_job>/buildWithParameters`, with no `/job/` segment (app.py:47).
- The ignore-list check (app.py:38) comes before any query argument is required (app.py:42-45).
- `REF_PREFIX` is `refs/heads/` (app.py:16), the constant `App.REF_PREFIX`.
- The invalid-ref message is kept exactly as `app.py` formats it:
  `should be "refs/heads//BRANCHNAME"`. The slash is doubled because
  `REF_PREFIX` already ends in `/` (app.py:16, 84).

## Model

| member | source | states |
|---|---|---|
| `PyStr.StartsWith` | app.py:83 | `str.startswith`: true iff `s` is `prefix` followed by some string |
| `PyStr.Split` | app.py:15 | `str.split` with a one-character separator: at least one piece, and no piece contains the separator |
| `PyStr.JoinSplit` | app.py:15 | joining the pieces of `Split(s)` with the separator gives back `s` |
| `PyStr.SplitJoin` | app.py:15 | splitting a join of separator-free pieces gives back exactly those pieces |
| `PyStr.PrefixConcat` | app.py:83-86 | `p + t` starts with `p`, and slicing past `p` gives back `t` |
| `PyStr.PrefixSlice` | app.py:83-86 | a string that starts with `p` is `p` followed by its slice past `p` |
| `App.NonEmpty` | app.py:15 | the filter `if b != ''`: the result holds no empty string; it holds exactly the non-empty members of its input, each as often as the input does |
| `App.ParseIgnoreList` | app.py:15 | the ignore list has no empty entry, and a name is on it iff it is non-empty and is a piece of the variable split on `','` |
| `App.IgnoreBranches` | app.py:15 | an unset `IGNORE_BRANCHES` gives the empty list; otherwise the list is parsed from its value |
| `App.ParseIgnoreListOfEmpty` | app.py:15 | `""` gives `[]` |
| `App.ParseIgnoreListDropsEmptyPieces` | app.py:15 | `"a,,b"` gives `["a", "b"]` |
| `App.SplitOfExample` | app.py:15 | `"a,,b".split(',')` is `["a", "", "b"]` |
| `App.NonEmptyOfExample` | app.py:15 | filtering `["a", "", "b"]` gives `["a", "b"]` |
| `App.NonEmptyKeepsNonEmpty` | app.py:15 | filtering a list with no empty string leaves it unchanged |
| `App.ParseIgnoreListOfJoin` | app.py:15 | a comma-joined list of non-empty, comma-free names is parsed back as exactly that list |
| `App.Abort` | app.py:21-24 | HTTP status is `status`; the body is `data` with `status` and `message` set to the arguments, overriding any `data` entries of those names; every other entry of `data` is kept |
| `App.Jsonify` | app.py:56 | `jsonify(status=200, message=m)`: HTTP 200, body holds exactly `status` 200 and `message` `m` |
| `App.RequireArg` | app.py:27-31 | succeeds iff the argument is present or there is a default; gives the argument first, else the default; otherwise a 400 `abort` naming the parameter |
| `App.MissingArgMessage` | app.py:30 | the message `No "<name>" query parameter supplied` contains the parameter name |
| `App.MissingArgMessageInjective` | app.py:30 | different parameter names give different messages |
| `App.InvalidRefMessage` | app.py:84 | the message contains `refs/heads/` and reads exactly `Invalid format for "ref" in payload: should be "refs/heads//BRANCHNAME"` |
| `App.IgnoringMessage` | app.py:40 | the message is `Ignoring push on ` followed by exactly the branch |
| `App.ExtractBranch` | app.py:83-87 | succeeds iff `ref` starts with `refs/heads/`; then `REF_PREFIX + branch == ref`; otherwise the 400 invalid-ref `abort` |
| `App.ExtractBranchOfPrefixed` | app.py:83-86 | extracting from `REF_PREFIX + b` gives back exactly `b` |
| `App.GetPushedBranch` | app.py:67-87 | gives a branch iff the payload is present, decodes, has a `ref`, and the `ref` has the prefix; the branch is the `ref` without its prefix; every failure is a well-formed 400 |
| `App.BuildUrl` | app.py:47 | the URL starts with `jenkins_url + "/"`, and what follows is the job then `/buildWithParameters` |
| `App.BuildParams` | app.py:48-49 | keys are `token` and the parameter key; the key maps to the branch; `token` maps to the token unless the key is `token` |
| `App.Submission` | app.py:42-49 | succeeds iff `jenkins_job`, `jenkins_token` and `jenkins_url` are all given (the parameter key defaults to `BRANCH`); then the build request goes to `BuildUrl(jenkins_url, jenkins_job)` with `BuildParams(token, key, branch)`; otherwise the 400 `abort` names the first missing argument in the order job, token, URL |
| `App.Plan` | app.py:35-49 | a failure of `_get_pushed_branch` is the reply; an ignored branch is answered `Ignoring push on <branch>` before any argument is looked at; a build request is planned iff the branch is not ignored and the arguments are given; every immediate reply is well-formed |
| `App.UpstreamReply` | app.py:54-64 | upstream ok gives 200, otherwise 500, always well-formed |
| `App.Build` | app.py:34-64 | the response is well-formed; a build request is sent iff `Plan` says submit; it is then answered 200 or 500 as upstream was ok or not; without one, the answer is 200 or 400 |
| `AppProperties.NoPayloadFirst` | app.py:69-71 | no `payload` field: 400 `No "payload" POST parameter supplied`, no build request, whatever else the request holds |
| `AppProperties.UnparsablePayloadSecond` | app.py:73-76 | an undecodable payload: 400 parse-failure message, no build request |
| `AppProperties.NoRefThird` | app.py:78-81 | a payload without `ref`: 400 `No "ref" supplied in payload`, no build request |
| `AppProperties.InvalidRefFourth` | app.py:83-84 | a `ref` outside `refs/heads/`: the 400 invalid-ref message, which names the prefix, and no build request |
| `AppProperties.IgnoredBranchFifth` | app.py:36-40 | an ignored branch: 200 `Ignoring push on <branch>`, no build request, whatever the query arguments (missing ones included) |
| `AppProperties.MissingJobSixth` | app.py:42 | a valid, unignored push without `jenkins_job`: 400 naming `jenkins_job` |
| `AppProperties.MissingTokenSeventh` | app.py:43 | with the job given but no `jenkins_token`: 400 naming `jenkins_token` |
| `AppProperties.MissingUrlEighth` | app.py:44-45 | with job and token given but no `jenkins_url`: 400 naming `jenkins_url` |
| `AppProperties.SubmittedBuild` | app.py:42-56 | all checks pass: exactly one build request to `jenkins_url + "/" + jenkins_job + "/buildWithParameters"` carrying token and branch, answered 200 `Submitted request for build` or 500 `Error communicating with Jenkins` |
| `AppProperties.SubmittedParams` | app.py:45-49 | without `jenkins_param_key` the params are `{token: <token>, BRANCH: <branch>}`; with key `token` they are `{token: <branch>}` |
| `AppProperties.CallIffForwardable` | app.py:34-52 | a build request is sent iff payload, decoding, `ref` and prefix checks pass, the branch is not ignored, and job, token and URL are given |
| `AppProperties.ResponseStatuses` | app.py:34-64 | a 200 without a build request happens only for an ignored branch |
| `AppProperties.EmptyBranchNeverIgnored` | app.py:15 | the ignore list read from the environment never holds the empty branch that a `ref` of exactly `refs/heads/` yields |

## Left out

- Flask routing, app setup, and the serialisation done by `Response`, `json.dumps` and `jsonify`. A body is a map, so JSON key order is not modelled.
- The exception raised by Flask's `abort`: the model's `Abort` returns the response instead.
- `json.loads` and the payload lookup `payload.get('ref')`: these are the parameter `loads`. The crashes when the decoded JSON is not an object or `ref` is not a string are not modelled.
- The `requests.get` call itself. It is network I/O; its `ok` is the parameter `upstreamOk`. The params go in the request body (`data=`); the model records them as a map. A call that raises (a connection failure, or a `jenkins_url` without a scheme) is folded into `upstreamOk == false`; the source answers Flask's generic 500 there. The call has no timeout, so it can block indefinitely.
- `App.UpstreamReply`: on failure, the source also passes `upstream_status=res.status` and `upstream_response_body=res.body`. A `requests` response has no such attributes, so in practice that line raises before `abort`. The model gives the 500 reply without these two fields.
- Query arguments and form fields that appear more than once: `request.args` and `request.form` are maps here, holding the value that `.get` returns.
- The default message of `abort`: no caller uses it.
- Logging, the `DEBUG` flag, and the `PORT`/host start-up.
