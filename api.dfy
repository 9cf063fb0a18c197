/**
 * What both revisions of the Portainer service share: the values they read
 * from and write to the Portainer HTTP API, the scripted HTTP client that
 * stands in for axios, and the pieces of a new stack's descriptor.
 *
 * Reply bodies and request bodies are structured values: URL building,
 * `JSON.stringify`, YAML `parse`/`stringify` and `path.resolve` are not
 * interpreted.
 */
module Api {
  import opened Wrappers
  import opened Utilities

  // ---------------------------------------------------------------------
  // Values and constants
  // ---------------------------------------------------------------------

  /** A JSON/YAML scalar; `Undefined` is a missing property. */
  datatype Value = Undefined | Null | Bool(b: bool) | Num(n: int) | Str(s: string)

  /** A plain object such as a listed stack or an `x-metadata` block. */
  type Record = map<string, Value>

  /** Property access: a missing key reads as `undefined`. */
  function Field(r: Record, key: string): Value {
    if key in r then r[key] else Undefined
  }

  /** The environment entry that marks a stack as managed by this service. */
  const Marker: string := "PORTAINER_MINECRAFT_STACK"

  /** `PortainerStatus.active` and `PortainerStatus.inactive`. */
  const Active: int := 1
  const Inactive: int := 2

  /** `PortainerStackType.compose`. */
  const ComposeType: int := 2

  // ---------------------------------------------------------------------
  // Replies of the Portainer API
  // ---------------------------------------------------------------------

  datatype EnvEntry = EnvEntry(name: string, value: string)

  /** A stack of `GET /api/stacks`; `env` is `None` when `Env` is missing or null. */
  datatype RawStack = RawStack(id: int, name: string, status: int, env: Option<seq<EnvEntry>>)

  /**
   * The `data` of a reply, in the shapes the service reads: `NoData` is a
   * reply without `data`; `StackFileData` holds the `x-metadata` block of the
   * parsed `StackFileContent`; `EndpointListData` the `Id` of each endpoint.
   */
  datatype Body =
    | NoData
    | AuthData(jwt: Option<string>)
    | StackListData(stacks: seq<RawStack>)
    | StackFileData(metadata: Option<Record>)
    | EndpointListData(endpoints: seq<Value>)

  /**
   * What a call of the HTTP client settles to: a response with its status,
   * or a rejection with the error's message. A response without a status is
   * written with a status other than 200.
   */
  datatype Reply = Ok(status: int, body: Body) | Err(message: string)

  /** `response?.data?.jwt`. */
  function JwtOf(body: Body): (jwt: Option<string>)
    ensures body.AuthData? ==> jwt == body.jwt
    ensures !body.AuthData? ==> jwt == None
  {
    match body
    case AuthData(jwt) => jwt
    case _ => None
  }

  /** `response.data || []` of the stack list; another shape cannot be filtered. */
  function StackListOf(body: Body): (r: Result<seq<RawStack>, Error>)
    ensures body.NoData? ==> r == Success([])
    ensures body.StackListData? ==> r == Success(body.stacks)
    ensures !body.NoData? && !body.StackListData? ==> r == Failure(TypeError)
  {
    match body
    case NoData => Success([])
    case StackListData(stacks) => Success(stacks)
    case _ => Failure(TypeError)
  }

  /** `response.data[0].Id`: reading it from an empty or missing list throws. */
  function FirstEndpointOf(body: Body): (r: Result<Value, Error>)
    ensures r.Success? <==> body.EndpointListData? && |body.endpoints| > 0
    ensures r.Success? ==> r.value == body.endpoints[0]
  {
    match body
    case EndpointListData(endpoints) =>
      if |endpoints| > 0 then Success(endpoints[0]) else Failure(TypeError)
    case _ => Failure(TypeError)
  }

  // ---------------------------------------------------------------------
  // Requests
  // ---------------------------------------------------------------------

  datatype Verb = GET | POST

  datatype Path =
    | AuthPath                                  // /api/auth
    | UsersPath                                 // /api/users
    | StatusPath                                // /api/status
    | StacksPath                                // /api/stacks
    | StackFilePath(id: Value)                  // /api/stacks/{id}/file
    | StartPath(id: Value)                      // /api/stacks/{id}/start
    | StopPath(id: Value)                       // /api/stacks/{id}/stop
    | EndpointsPath                             // /api/endpoints
    | CreateStackPath(stackType: int, submission: string, endpointId: Value)
                                                // /api/stacks?type=&method=&endpointId=

  /** The `Authorization` header: `Bearer ${token}`, where the token may be undefined. */
  datatype Auth = NoAuth | Bearer(token: Option<string>)

  /** A volume of the server container; `DataVolume` is `${resolve(root, dir)}:/data`. */
  datatype Volume = HostVolume(spec: string) | DataVolume(root: string, dir: string)

  datatype XMetadata = XMetadata(name: string, description: string, owner: string)

  /** The compose file of a new stack, before it is serialised to YAML. */
  datatype StackFile = StackFile(
    version: string,
    metadata: XMetadata,
    image: string,
    environment: map<string, Value>,
    ports: seq<string>,
    volumes: seq<Volume>)

  /** The JSON body of `POST /api/stacks`. */
  datatype StackBody = StackBody(name: string, env: seq<EnvEntry>, content: StackFile)

  datatype Payload = NoPayload | Credentials(username: string, password: string) | NewStack(body: StackBody)

  /** One call of the HTTP client; `json` is the `Content-Type: application/json` header. */
  datatype Request = Request(verb: Verb, path: Path, auth: Auth, json: bool, payload: Payload)

  /** `GET /api/endpoints`, sent as JSON. */
  function EndpointsRequest(token: Option<string>): Request {
    Request(GET, EndpointsPath, Bearer(token), true, NoPayload)
  }

  /** What the service's promises reject with. */
  datatype Error = HttpError(message: string) | BadRequest(error: string) | TypeError

  // ---------------------------------------------------------------------
  // The scripted client
  // ---------------------------------------------------------------------

  /**
   * The replies a mocked client gives: the queued once-replies in order,
   * then the default reply for every later call.
   */
  datatype Script = Script(once: seq<Reply>, fallback: Reply) {
    function Next(): Reply {
      if |once| > 0 then once[0] else fallback
    }

    function Rest(): Script {
      if |once| > 0 then Script(once[1..], fallback) else this
    }
  }

  /** The cached token, the client's remaining replies and the requests sent so far. */
  datatype State = State(token: Option<string>, script: Script, log: seq<Request>)

  /** The reply the client gives to the next request. */
  function NextReply(st: State): Reply {
    st.script.Next()
  }

  /** The state after `request` was sent and answered. */
  function Sent(st: State, request: Request): (after: State)
    ensures after.token == st.token && after.log == st.log + [request]
  {
    State(st.token, st.script.Rest(), st.log + [request])
  }

  /** What an operation settles to and the state it leaves. */
  datatype Outcome<T> = Outcome(result: Result<T, Error>, state: State)

  /** A failed outcome, passed on with the same error and state. */
  function Propagate<T, U>(o: Outcome<T>): (p: Outcome<U>)
    requires o.result.Failure?
    ensures p.result == Failure(o.result.error) && p.state == o.state
  {
    Outcome(Failure(o.result.error), o.state)
  }

  /** The HTTP client: answers from its script and records every request. */
  class ScriptedClient {
    var script: Script
    var log: seq<Request>

    constructor(script: Script)
      ensures this.script == script && log == []
    {
      this.script := script;
      log := [];
    }

    method Send(request: Request) returns (reply: Reply)
      modifies this
      ensures reply == old(script).Next()
      ensures script == old(script).Rest()
      ensures log == old(log) + [request]
    {
      reply := script.Next();
      script := script.Rest();
      log := log + [request];
    }
  }

  // ---------------------------------------------------------------------
  // Authentication
  // ---------------------------------------------------------------------

  /** The service's configuration; `defaults` stands for `defaultMinecraftConfig`. */
  datatype Config = Config(
    username: string,
    password: string,
    volumePath: string,
    defaults: seq<(string, Value)>)

  /** `!this.token` is false: the token is neither undefined nor empty. */
  predicate HasToken(token: Option<string>) {
    token.Some? && token.value != ""
  }

  function LoginRequest(cfg: Config): Request {
    Request(POST, AuthPath, NoAuth, false, Credentials(cfg.username, cfg.password))
  }

  /** Requests that only authentication sends. */
  predicate IsAuthPath(p: Path) {
    p == AuthPath || p == UsersPath || p == StatusPath
  }

  /** `pattern` (lower case) occurs in `s`, ignoring ASCII case. */
  predicate ContainsIgnoringCase(s: string, pattern: string) {
    exists i :: 0 <= i <= |s| - |pattern| && Lower(s[i..][..|pattern|]) == pattern
  }

  /** `/status code 401/i.test(message)`. */
  predicate Mentions401(message: string) {
    ContainsIgnoringCase(message, "status code 401")
  }

  // ---------------------------------------------------------------------
  // Stacks
  // ---------------------------------------------------------------------

  /** `(stack.Env || []).find((env) => env.name === 'PORTAINER_MINECRAFT_STACK')` is found. */
  predicate HasMarker(stack: RawStack) {
    var env := stack.env.GetOr([]);
    exists i :: 0 <= i < |env| && env[i].name == Marker
  }

  /** The ids of the listed stacks whose status is active, in order. */
  function ActiveIds(stacks: seq<Record>): (ids: seq<Value>)
    ensures |ids| <= |stacks|
  {
    if stacks == [] then []
    else
      var last := stacks[|stacks| - 1];
      ActiveIds(stacks[..|stacks| - 1])
        + (if Field(last, "status") == Num(Active) then [Field(last, "id")] else [])
  }

  lemma {:induction false} ActiveIdsExact(stacks: seq<Record>, v: Value)
    ensures v in ActiveIds(stacks)
      <==> exists i :: 0 <= i < |stacks| && Field(stacks[i], "status") == Num(Active)
                                       && Field(stacks[i], "id") == v
  {
    if stacks != [] {
      var front := stacks[..|stacks| - 1];
      ActiveIdsExact(front, v);
      if v in ActiveIds(stacks) && v !in ActiveIds(front) {
        assert Field(stacks[|stacks| - 1], "id") == v;
      }
      if exists i :: 0 <= i < |stacks| && Field(stacks[i], "status") == Num(Active)
                                     && Field(stacks[i], "id") == v {
        var i :| 0 <= i < |stacks| && Field(stacks[i], "status") == Num(Active)
                                 && Field(stacks[i], "id") == v;
        if i < |front| {
          assert front[i] == stacks[i];
        }
      }
    }
  }

  // ---------------------------------------------------------------------
  // A new stack
  // ---------------------------------------------------------------------

  /** The `metadata` argument of `createStack`: every field may be missing. */
  datatype StackMetadataInput = StackMetadataInput(
    name: Option<string>,
    description: Option<string>,
    owner: Option<string>)

  /** `!metadata.name`: the name is missing or empty. */
  predicate MissingName(meta: StackMetadataInput) {
    meta.name.None? || meta.name.value == ""
  }

  const NameRequired: string := "The stack name must be provided"

  /**
   * The server's environment: the translated defaults, then the translated
   * user configuration over them, then `EULA: true`.
   */
  function Environment(defaults: seq<(string, Value)>, overrides: seq<(string, Value)>): (env: map<string, Value>)
    ensures "EULA" in env && env["EULA"] == Bool(true)
  {
    (EnvValues(defaults) + EnvValues(overrides))["EULA" := Bool(true)]
  }

  lemma EnvironmentMerge(defaults: seq<(string, Value)>, overrides: seq<(string, Value)>, k: string)
    ensures "EULA" in Environment(defaults, overrides)
    ensures Environment(defaults, overrides)["EULA"] == Bool(true)
    ensures k in Environment(defaults, overrides)
      <==> k == "EULA" || k in EnvValues(defaults) || k in EnvValues(overrides)
    ensures k != "EULA" && k in EnvValues(overrides)
      ==> Environment(defaults, overrides)[k] == EnvValues(overrides)[k]
    ensures k != "EULA" && k !in EnvValues(overrides) && k in EnvValues(defaults)
      ==> Environment(defaults, overrides)[k] == EnvValues(defaults)[k]
  {}

  /** The compose file of `createStack`, with the name its `x-metadata` carries. */
  function StackDescriptor(
    cfg: Config, metadataName: string, safeName: string,
    meta: StackMetadataInput, config: seq<(string, Value)>): StackFile
  {
    StackFile(
      "3",
      XMetadata(metadataName, meta.description.GetOr(""), meta.owner.GetOr("")),
      "itzg/minecraft-server:latest",
      Environment(cfg.defaults, config),
      ["25565:25565"],
      [HostVolume("/etc/localtime:/etc/localtime:ro"), DataVolume(cfg.volumePath, safeName)])
  }

  /** `POST /api/stacks?type=2&method=string&endpointId=…` with the new stack's body. */
  function CreateRequest(token: Option<string>, endpointId: Value, safeName: string, content: StackFile): Request {
    Request(POST, CreateStackPath(ComposeType, "string", endpointId), Bearer(token), true,
            NewStack(StackBody(safeName, [EnvEntry(Marker, "1")], content)))
  }

  /** The requests that act on one stack, or create one. */
  datatype Target = FileOf | StartOf | StopOf | CreateOf

  /** The stack (or, for a creation, the endpoint) a request targets, if it is of kind `t`. */
  function TargetOf(r: Request, t: Target): seq<Value> {
    if t == FileOf && r.path.StackFilePath? then [r.path.id]
    else if t == StartOf && r.path.StartPath? then [r.path.id]
    else if t == StopOf && r.path.StopPath? then [r.path.id]
    else if t == CreateOf && r.path.CreateStackPath? then [r.path.endpointId]
    else []
  }

  /** The targets of the requests of `log` of kind `t`, in order. */
  function Targets(log: seq<Request>, t: Target): (ids: seq<Value>)
    ensures |ids| <= |log|
  {
    if log == [] then []
    else Targets(log[..|log| - 1], t) + TargetOf(log[|log| - 1], t)
  }

  lemma TargetsSnoc(log: seq<Request>, r: Request, t: Target)
    ensures Targets(log + [r], t) == Targets(log, t) + TargetOf(r, t)
  {
    assert (log + [r])[..|log|] == log;
  }

  /** A request that acts on no stack adds no target. */
  lemma SentUntargeted(st: State, r: Request)
    requires IsAuthPath(r.path) || r.path == StacksPath || r.path == EndpointsPath
    ensures forall t :: Targets(Sent(st, r).log, t) == Targets(st.log, t)
  {
    forall t
      ensures Targets(Sent(st, r).log, t) == Targets(st.log, t)
    {
      TargetsSnoc(st.log, r, t);
    }
  }

  /** A request for a stack file adds that stack to the file targets only. */
  lemma SentFile(st: State, r: Request)
    requires r.path.StackFilePath?
    ensures Targets(Sent(st, r).log, FileOf) == Targets(st.log, FileOf) + [r.path.id]
    ensures forall t :: t != FileOf ==> Targets(Sent(st, r).log, t) == Targets(st.log, t)
  {
    TargetsSnoc(st.log, r, FileOf);
    forall t | t != FileOf
      ensures Targets(Sent(st, r).log, t) == Targets(st.log, t)
    {
      TargetsSnoc(st.log, r, t);
    }
  }

  lemma SentStart(st: State, r: Request)
    requires r.path.StartPath?
    ensures Targets(Sent(st, r).log, StartOf) == Targets(st.log, StartOf) + [r.path.id]
    ensures forall t :: t != StartOf ==> Targets(Sent(st, r).log, t) == Targets(st.log, t)
  {
    TargetsSnoc(st.log, r, StartOf);
    forall t | t != StartOf
      ensures Targets(Sent(st, r).log, t) == Targets(st.log, t)
    {
      TargetsSnoc(st.log, r, t);
    }
  }

  lemma SentStop(st: State, r: Request)
    requires r.path.StopPath?
    ensures Targets(Sent(st, r).log, StopOf) == Targets(st.log, StopOf) + [r.path.id]
    ensures forall t :: t != StopOf ==> Targets(Sent(st, r).log, t) == Targets(st.log, t)
  {
    TargetsSnoc(st.log, r, StopOf);
    forall t | t != StopOf
      ensures Targets(Sent(st, r).log, t) == Targets(st.log, t)
    {
      TargetsSnoc(st.log, r, t);
    }
  }

  lemma SentCreate(st: State, r: Request)
    requires r.path.CreateStackPath?
    ensures Targets(Sent(st, r).log, CreateOf) == Targets(st.log, CreateOf) + [r.path.endpointId]
    ensures forall t :: t != CreateOf ==> Targets(Sent(st, r).log, t) == Targets(st.log, t)
  {
    TargetsSnoc(st.log, r, CreateOf);
    forall t | t != CreateOf
      ensures Targets(Sent(st, r).log, t) == Targets(st.log, t)
    {
      TargetsSnoc(st.log, r, t);
    }
  }

  /** The `id` of each listed stack, in order. */
  function Ids(stacks: seq<Record>): (ids: seq<Value>)
    ensures |ids| == |stacks|
    ensures forall i :: 0 <= i < |stacks| ==> ids[i] == Field(stacks[i], "id")
  {
    if stacks == [] then [] else Ids(stacks[..|stacks| - 1]) + [Field(stacks[|stacks| - 1], "id")]
  }
}
