/**
 * The older revision of the Portainer service: a cached token checked
 * against `/api/status`, whose failing probe hands out the reply's `jwt`
 * instead of logging in again; stacks recognised by their name or their
 * marker; and a new stack whose safe name is used everywhere, its
 * `x-metadata` included.
 *
 * As in `Portainer`, each operation has a specification function over
 * `State`, and the methods of `PortainerService` are proved to end in the
 * state that function describes.
 */
module PortainerLegacy {
  import opened Wrappers
  import opened Utilities
  import opened Api

  // ---------------------------------------------------------------------
  // getAuthToken
  // ---------------------------------------------------------------------

  /** The check of a cached token. */
  function ProbeRequest(token: Option<string>): Request {
    Request(GET, StatusPath, Bearer(token), false, NoPayload)
  }

  /**
   * `getAuthToken`: log in when there is no usable token; otherwise probe it.
   * A 200 keeps the token, another status replaces it with the reply's `jwt`,
   * and only a rejection mentioning 401 clears it and logs in again.
   */
  function Authenticate(cfg: Config, st: State): (o: Outcome<Option<string>>)
    decreases if HasToken(st.token) then 1 else 0
    ensures |st.log| + 1 <= |o.state.log| <= |st.log| + 2
    ensures forall t :: Targets(o.state.log, t) == Targets(st.log, t)
    ensures o.result.Success? ==> o.state.token == o.result.value
    // No usable token: one login, whose `jwt` becomes the token.
    ensures !HasToken(st.token) ==> o.state.log == st.log + [LoginRequest(cfg)]
    ensures !HasToken(st.token) && NextReply(st).Ok?
      ==> o.result == Success(JwtOf(NextReply(st).body))
    // A rejected login propagates.
    ensures !HasToken(st.token) && NextReply(st).Err?
      ==> o.result == Failure(HttpError(NextReply(st).message))
    // A token the probe accepts: one request, the token is kept.
    ensures HasToken(st.token) && NextReply(st).Ok? && NextReply(st).status == 200
      ==> o.state.log == st.log + [ProbeRequest(st.token)]
          && o.result == Success(st.token) && o.state.token == st.token
    // Another status: one request, the reply's `jwt` becomes the token.
    ensures HasToken(st.token) && NextReply(st).Ok? && NextReply(st).status != 200
      ==> o.state.log == st.log + [ProbeRequest(st.token)]
          && o.result == Success(JwtOf(NextReply(st).body))
    // A rejection without 401: it propagates and no login follows.
    ensures HasToken(st.token) && NextReply(st).Err? && !Mentions401(NextReply(st).message)
      ==> o.state.log == st.log + [ProbeRequest(st.token)]
          && o.result == Failure(HttpError(NextReply(st).message))
    // A 401 rejection: exactly one login follows, and its `jwt` is returned.
    ensures HasToken(st.token) && NextReply(st).Err? && Mentions401(NextReply(st).message)
      ==> o.state.log == st.log + [ProbeRequest(st.token), LoginRequest(cfg)]
          && (NextReply(Sent(st, ProbeRequest(st.token))).Ok?
              ==> o.result == Success(JwtOf(NextReply(Sent(st, ProbeRequest(st.token))).body)))
          && (NextReply(Sent(st, ProbeRequest(st.token))).Err?
              ==> o.result == Failure(HttpError(NextReply(Sent(st, ProbeRequest(st.token))).message)))
    ensures o.result.Failure? ==> !o.result.error.BadRequest?
  {
    if !HasToken(st.token) then
      var reply := NextReply(st);
      var after := Sent(st, LoginRequest(cfg));
      SentUntargeted(st, LoginRequest(cfg));
      match reply
      case Err(message) => Outcome(Failure(HttpError(message)), after)
      case Ok(_, body) =>
        Outcome(Success(JwtOf(body)), State(JwtOf(body), after.script, after.log))
    else
      var reply := NextReply(st);
      var after := Sent(st, ProbeRequest(st.token));
      SentUntargeted(st, ProbeRequest(st.token));
      match reply
      case Err(message) =>
        if Mentions401(message) then Authenticate(cfg, State(None, after.script, after.log))
        else Outcome(Failure(HttpError(message)), after)
      case Ok(status, body) =>
        if status == 200 then Outcome(Success(st.token), after)
        else Outcome(Success(JwtOf(body)), State(JwtOf(body), after.script, after.log))
  }

  // ---------------------------------------------------------------------
  // listMinecraftStacks
  // ---------------------------------------------------------------------

  /** The filter of the listing: `/minecraft/i` in the name, or the marker. */
  predicate IsMinecraft(stack: RawStack) {
    ContainsIgnoringCase(stack.name, "minecraft") || HasMarker(stack)
  }

  function Kept(stacks: seq<RawStack>): (kept: seq<RawStack>)
    ensures |kept| <= |stacks|
  {
    if stacks == [] then []
    else
      var last := stacks[|stacks| - 1];
      Kept(stacks[..|stacks| - 1]) + (if IsMinecraft(last) then [last] else [])
  }

  /** The filter keeps exactly the Minecraft stacks... */
  lemma {:induction false} KeptExact(stacks: seq<RawStack>, stack: RawStack)
    ensures stack in Kept(stacks) <==> stack in stacks && IsMinecraft(stack)
  {
    if stacks != [] {
      var front := stacks[..|stacks| - 1];
      KeptExact(front, stack);
      assert stacks == front + [stacks[|stacks| - 1]];
    }
  }

  /** ...in their original order. */
  lemma {:induction false} KeptAppend(a: seq<RawStack>, b: seq<RawStack>)
    decreases |b|
    ensures Kept(a + b) == Kept(a) + Kept(b)
  {
    if b == [] {
      assert a + b == a;
    } else {
      var front := b[..|b| - 1];
      var last := b[|b| - 1];
      assert (a + b)[..|a + b| - 1] == a + front;
      KeptAppend(a, front);
      AppendAssoc(Kept(a), Kept(front), if IsMinecraft(last) then [last] else []);
    }
  }

  /** The projection of the listing. */
  function Listing(stack: RawStack): Record {
    map["id" := Num(stack.id), "name" := Str(stack.name), "status" := Num(stack.status)]
  }

  function Listings(stacks: seq<RawStack>): (records: seq<Record>)
    ensures |records| == |stacks|
    ensures forall i :: 0 <= i < |stacks| ==> records[i] == Listing(stacks[i])
  {
    if stacks == [] then []
    else Listings(stacks[..|stacks| - 1]) + [Listing(stacks[|stacks| - 1])]
  }

  /** The request of the stack list. */
  function ListRequest(token: Option<string>): Request {
    Request(GET, StacksPath, Bearer(token), false, NoPayload)
  }

  /** `listMinecraftStacks`: the Minecraft stacks of the reply, projected; a reply without stacks lists none. */
  function ListStacks(cfg: Config, st: State): (o: Outcome<seq<Record>>)
    ensures forall t :: Targets(o.state.log, t) == Targets(st.log, t)
    ensures o.result.Failure? ==> !o.result.error.BadRequest?
  {
    var a := Authenticate(cfg, st);
    if a.result.Failure? then
      Propagate(a)
    else
      var reply := NextReply(a.state);
      var after := Sent(a.state, ListRequest(a.result.value));
      SentUntargeted(a.state, ListRequest(a.result.value));
      if reply.Err? then Outcome(Failure(HttpError(reply.message)), after)
      else
        match StackListOf(reply.body)
        case Failure(e) => Outcome(Failure(e), after)
        case Success(stacks) => Outcome(Success(Listings(Kept(stacks))), after)
  }

  /**
   * A listing after a successful login sends one request more, with the
   * token, and holds the projected Minecraft stacks of its reply.
   */
  lemma ListStacksResult(cfg: Config, st: State, raw: seq<RawStack>)
    requires var a := Authenticate(cfg, st);
      a.result.Success? && NextReply(a.state).Ok? && StackListOf(NextReply(a.state).body) == Success(raw)
    ensures var a := Authenticate(cfg, st);
      var o := ListStacks(cfg, st);
      o.result == Success(Listings(Kept(raw)))
      && o.state.log == a.state.log + [ListRequest(a.result.value)]
  {}

  // ---------------------------------------------------------------------
  // startStack, stopStack, getEndpointId
  //
  // These steps, and the stopping and creation steps below, read as in the
  // current revision, but each one authenticates through this revision's
  // `Authenticate` and lists through this revision's `ListStacks`.
  // ---------------------------------------------------------------------

  function Start(cfg: Config, st: State, id: Value): (o: Outcome<()>)
    ensures forall t :: t != StartOf ==> Targets(o.state.log, t) == Targets(st.log, t)
    ensures o.result.Success? ==> Targets(o.state.log, StartOf) == Targets(st.log, StartOf) + [id]
    ensures o.result.Failure? ==> !o.result.error.BadRequest?
  {
    var a := Authenticate(cfg, st);
    if a.result.Failure? then
      Propagate(a)
    else
      var request := Request(POST, StartPath(id), Bearer(a.result.value), false, NoPayload);
      var reply := NextReply(a.state);
      SentStart(a.state, request);
      Outcome(if reply.Err? then Failure(HttpError(reply.message)) else Success(()), Sent(a.state, request))
  }

  function Stop(cfg: Config, st: State, id: Value): (o: Outcome<()>)
    ensures forall t :: t != StopOf ==> Targets(o.state.log, t) == Targets(st.log, t)
    ensures o.result.Success? ==> Targets(o.state.log, StopOf) == Targets(st.log, StopOf) + [id]
    ensures o.result.Failure? ==> !o.result.error.BadRequest?
  {
    var a := Authenticate(cfg, st);
    if a.result.Failure? then
      Propagate(a)
    else
      var request := Request(POST, StopPath(id), Bearer(a.result.value), false, NoPayload);
      var reply := NextReply(a.state);
      SentStop(a.state, request);
      Outcome(if reply.Err? then Failure(HttpError(reply.message)) else Success(()), Sent(a.state, request))
  }

  /**
   * After `getAuthToken`, `startStack` sends `POST /api/stacks/<id>/start` once,
   * with the token; a response succeeds, a rejection propagates, and a failed
   * authentication is passed on before anything is sent.
   */
  lemma StartResult(cfg: Config, st: State, id: Value)
    ensures var a := Authenticate(cfg, st);
      var o := Start(cfg, st, id);
      a.result.Failure? ==> o.result == Failure(a.result.error) && o.state == a.state
    ensures var a := Authenticate(cfg, st);
      var o := Start(cfg, st, id);
      var reply := NextReply(a.state);
      a.result.Success? ==>
        o.state.log == a.state.log + [Request(POST, StartPath(id), Bearer(a.result.value), false, NoPayload)]
        && (reply.Ok? ==> o.result == Success(()))
        && (reply.Err? ==> o.result == Failure(HttpError(reply.message)))
  {}

  /**
   * After `getAuthToken`, `stopStack` sends `POST /api/stacks/<id>/stop` once,
   * with the token; a response succeeds, a rejection propagates, and a failed
   * authentication is passed on before anything is sent.
   */
  lemma StopResult(cfg: Config, st: State, id: Value)
    ensures var a := Authenticate(cfg, st);
      var o := Stop(cfg, st, id);
      a.result.Failure? ==> o.result == Failure(a.result.error) && o.state == a.state
    ensures var a := Authenticate(cfg, st);
      var o := Stop(cfg, st, id);
      var reply := NextReply(a.state);
      a.result.Success? ==>
        o.state.log == a.state.log + [Request(POST, StopPath(id), Bearer(a.result.value), false, NoPayload)]
        && (reply.Ok? ==> o.result == Success(()))
        && (reply.Err? ==> o.result == Failure(HttpError(reply.message)))
  {}

  /** `getEndpointId`: the `Id` of the first endpoint. */
  function EndpointId(cfg: Config, st: State): (o: Outcome<Value>)
    ensures forall t :: Targets(o.state.log, t) == Targets(st.log, t)
    ensures o.result.Failure? ==> !o.result.error.BadRequest?
  {
    var a := Authenticate(cfg, st);
    if a.result.Failure? then
      Propagate(a)
    else
      var request := EndpointsRequest(a.result.value);
      var reply := NextReply(a.state);
      SentUntargeted(a.state, request);
      Outcome(if reply.Err? then Failure(HttpError(reply.message)) else FirstEndpointOf(reply.body),
              Sent(a.state, request))
  }

  /**
   * After `getAuthToken`, `getEndpointId` asks for the endpoint list once and
   * returns the `Id` of its first endpoint; an empty or missing list cannot
   * be indexed, and a failed authentication is passed on.
   */
  lemma EndpointIdResult(cfg: Config, st: State)
    ensures var a := Authenticate(cfg, st);
      var o := EndpointId(cfg, st);
      a.result.Failure? ==> o.result == Failure(a.result.error) && o.state == a.state
    ensures var a := Authenticate(cfg, st);
      var o := EndpointId(cfg, st);
      var reply := NextReply(a.state);
      a.result.Success? ==>
        o.state.log == a.state.log + [EndpointsRequest(a.result.value)]
        && (reply.Ok? && reply.body.EndpointListData? && |reply.body.endpoints| > 0
            ==> o.result == Success(reply.body.endpoints[0]))
        && (reply.Ok? && !(reply.body.EndpointListData? && |reply.body.endpoints| > 0)
            ==> o.result == Failure(TypeError))
        && (reply.Err? ==> o.result == Failure(HttpError(reply.message)))
  {}

  // ---------------------------------------------------------------------
  // createStack
  // ---------------------------------------------------------------------

  /** Stopping each listed stack whose status is active; the first failure ends the walk. */
  function StopActive(cfg: Config, st: State, stacks: seq<Record>): (o: Outcome<()>)
    decreases |stacks|
    ensures forall t :: t != StopOf ==> Targets(o.state.log, t) == Targets(st.log, t)
    ensures o.result.Failure? ==> !o.result.error.BadRequest?
  {
    if stacks == [] then Outcome(Success(()), st)
    else
      var o := StopActive(cfg, st, stacks[..|stacks| - 1]);
      var stack := stacks[|stacks| - 1];
      if o.result.Failure? || Field(stack, "status") != Num(Active) then o
      else Stop(cfg, o.state, Field(stack, "id"))
  }

  /** A walk that succeeds stops exactly the active stacks, each once, in order. */
  lemma {:induction false} StopActiveTargets(cfg: Config, st: State, stacks: seq<Record>)
    decreases |stacks|
    ensures var o := StopActive(cfg, st, stacks);
      o.result.Success? ==> Targets(o.state.log, StopOf) == Targets(st.log, StopOf) + ActiveIds(stacks)
  {
    if stacks != [] {
      var front := stacks[..|stacks| - 1];
      var stack := stacks[|stacks| - 1];
      StopActiveTargets(cfg, st, front);
      var o := StopActive(cfg, st, front);
      if o.result.Success? && Field(stack, "status") == Num(Active) {
        AppendAssoc(Targets(st.log, StopOf), ActiveIds(front), [Field(stack, "id")]);
      }
    }
  }

  lemma {:induction false} StopActiveStops(cfg: Config, st: State, stacks: seq<Record>, i: nat)
    requires i <= |stacks| && StopActive(cfg, st, stacks[..i]).result.Failure?
    ensures StopActive(cfg, st, stacks) == StopActive(cfg, st, stacks[..i])
    decreases |stacks|
  {
    if i == |stacks| {
      assert stacks[..i] == stacks;
    } else {
      var front := stacks[..|stacks| - 1];
      assert front[..i] == stacks[..i];
      StopActiveStops(cfg, st, front, i);
    }
  }

  /** The awaited steps before the name check: the token, the endpoint and the listed stacks. */
  function Prepare(cfg: Config, st: State): (o: Outcome<(Option<string>, Value, seq<Record>)>)
    ensures forall t :: Targets(o.state.log, t) == Targets(st.log, t)
    ensures o.result.Failure? ==> !o.result.error.BadRequest?
  {
    var a := Authenticate(cfg, st);
    if a.result.Failure? then
      Propagate(a)
    else
      var e := EndpointId(cfg, a.state);
      if e.result.Failure? then Propagate(e)
      else
        var l := ListStacks(cfg, e.state);
        if l.result.Failure? then Propagate(l)
        else Outcome(Success((a.result.value, e.result.value, l.result.value)), l.state)
  }

  /** The request that creates the stack; the safe name is in `x-metadata` too. */
  function NewStackRequest(
    cfg: Config, token: Option<string>, endpointId: Value,
    config: seq<(string, Value)>, meta: StackMetadataInput): Request
    requires !MissingName(meta)
  {
    var safeName := CreateStackName(meta.name.value);
    CreateRequest(token, endpointId, safeName, StackDescriptor(cfg, safeName, safeName, meta, config))
  }

  /**
   * `createStack` after the listing: stop the active stacks, reject a
   * missing name, then post the new stack with the first token.
   */
  function Finish(
    cfg: Config, st: State, token: Option<string>, endpointId: Value, stacks: seq<Record>,
    config: seq<(string, Value)>, meta: StackMetadataInput): (o: Outcome<()>)
    ensures Targets(o.state.log, StartOf) == Targets(st.log, StartOf)
  {
    var s := StopActive(cfg, st, stacks);
    if s.result.Failure? then Propagate(s)
    else if MissingName(meta) then Outcome(Failure(BadRequest(NameRequired)), s.state)
    else
      var request := NewStackRequest(cfg, token, endpointId, config, meta);
      var reply := NextReply(s.state);
      SentCreate(s.state, request);
      Outcome(if reply.Err? then Failure(HttpError(reply.message)) else Success(()), Sent(s.state, request))
  }

  /** `createStack`. */
  function Create(cfg: Config, st: State, config: seq<(string, Value)>, meta: StackMetadataInput): (o: Outcome<()>)
    ensures Targets(o.state.log, StartOf) == Targets(st.log, StartOf)
  {
    var p := Prepare(cfg, st);
    if p.result.Failure? then Propagate(p)
    else Finish(cfg, p.state, p.result.value.0, p.result.value.1, p.result.value.2, config, meta)
  }

  lemma FinishRejects(
    cfg: Config, st: State, token: Option<string>, endpointId: Value, stacks: seq<Record>,
    config: seq<(string, Value)>, meta: StackMetadataInput)
    requires MissingName(meta)
    ensures var o := Finish(cfg, st, token, endpointId, stacks, config, meta);
      o.result.Failure? && Targets(o.state.log, CreateOf) == Targets(st.log, CreateOf)
      && (o.result == Failure(BadRequest(NameRequired)) <==> StopActive(cfg, st, stacks).result.Success?)
  {}

  lemma FinishStops(
    cfg: Config, st: State, token: Option<string>, endpointId: Value, stacks: seq<Record>,
    config: seq<(string, Value)>, meta: StackMetadataInput)
    requires var o := Finish(cfg, st, token, endpointId, stacks, config, meta);
      o.result.Success? || o.result == Failure(BadRequest(NameRequired))
    ensures Targets(Finish(cfg, st, token, endpointId, stacks, config, meta).state.log, StopOf)
      == Targets(st.log, StopOf) + ActiveIds(stacks)
  {
    var s := StopActive(cfg, st, stacks);
    StopActiveTargets(cfg, st, stacks);
    if !MissingName(meta) {
      SentCreate(s.state, NewStackRequest(cfg, token, endpointId, config, meta));
    }
  }

  lemma FinishPosts(
    cfg: Config, st: State, token: Option<string>, endpointId: Value, stacks: seq<Record>,
    config: seq<(string, Value)>, meta: StackMetadataInput)
    requires Finish(cfg, st, token, endpointId, stacks, config, meta).result.Success?
    ensures var o := Finish(cfg, st, token, endpointId, stacks, config, meta);
      !MissingName(meta) && |o.state.log| > 0
      && o.state.log[|o.state.log| - 1] == NewStackRequest(cfg, token, endpointId, config, meta)
      && Targets(o.state.log, CreateOf) == Targets(st.log, CreateOf) + [endpointId]
  {
    var s := StopActive(cfg, st, stacks);
    SentCreate(s.state, NewStackRequest(cfg, token, endpointId, config, meta));
  }

  /**
   * A missing name is rejected only once every earlier step has succeeded,
   * and no stack is created then.
   */
  lemma CreateRejectsMissingName(cfg: Config, st: State, config: seq<(string, Value)>, meta: StackMetadataInput)
    requires MissingName(meta)
    ensures var o := Create(cfg, st, config, meta);
      o.result.Failure? && Targets(o.state.log, CreateOf) == Targets(st.log, CreateOf)
    ensures var p := Prepare(cfg, st);
      Create(cfg, st, config, meta).result == Failure(BadRequest(NameRequired))
      <==> p.result.Success? && StopActive(cfg, p.state, p.result.value.2).result.Success?
  {
    var p := Prepare(cfg, st);
    if p.result.Success? {
      FinishRejects(cfg, p.state, p.result.value.0, p.result.value.1, p.result.value.2, config, meta);
    }
  }

  /**
   * When `createStack` gets as far as the name check, it has stopped exactly
   * the listed stacks that were active.
   */
  lemma CreateStopsActive(cfg: Config, st: State, config: seq<(string, Value)>, meta: StackMetadataInput)
    requires var o := Create(cfg, st, config, meta);
      o.result.Success? || o.result == Failure(BadRequest(NameRequired))
    ensures var p := Prepare(cfg, st);
      p.result.Success?
      && Targets(Create(cfg, st, config, meta).state.log, StopOf)
         == Targets(st.log, StopOf) + ActiveIds(p.result.value.2)
  {
    var p := Prepare(cfg, st);
    FinishStops(cfg, p.state, p.result.value.0, p.result.value.1, p.result.value.2, config, meta);
  }

  /** A creation that succeeds posted the new stack last, with the first token and the endpoint. */
  lemma CreatePosts(cfg: Config, st: State, config: seq<(string, Value)>, meta: StackMetadataInput)
    requires Create(cfg, st, config, meta).result.Success?
    ensures var o := Create(cfg, st, config, meta);
      var p := Prepare(cfg, st);
      p.result.Success? && !MissingName(meta) && |o.state.log| > 0
      && o.state.log[|o.state.log| - 1] == NewStackRequest(cfg, p.result.value.0, p.result.value.1, config, meta)
      && Targets(o.state.log, CreateOf) == Targets(st.log, CreateOf) + [p.result.value.1]
  {
    var p := Prepare(cfg, st);
    FinishPosts(cfg, p.state, p.result.value.0, p.result.value.1, p.result.value.2, config, meta);
  }

  /**
   * The posted stack: the safe name is its name, its `x-metadata` name and
   * its data directory; its `x-metadata` carries the given description and
   * owner (empty when missing); its only environment entry is the marker;
   * and its server's environment is the merged configuration.
   */
  lemma NewStackShape(
    cfg: Config, token: Option<string>, endpointId: Value,
    config: seq<(string, Value)>, meta: StackMetadataInput)
    requires !MissingName(meta)
    ensures var r := NewStackRequest(cfg, token, endpointId, config, meta);
      var safeName := CreateStackName(meta.name.value);
      r.verb == POST && r.path == CreateStackPath(ComposeType, "string", endpointId)
      && r.auth == Bearer(token) && r.json && r.payload.NewStack?
      && r.payload.body.name == safeName && IsSafeName(safeName)
      && r.payload.body.env == [EnvEntry(Marker, "1")]
      && r.payload.body.content.metadata.name == safeName
      && r.payload.body.content.metadata.description == meta.description.GetOr("")
      && r.payload.body.content.metadata.owner == meta.owner.GetOr("")
      && r.payload.body.content.environment == Environment(cfg.defaults, config)
      && r.payload.body.content.version == "3"
      && r.payload.body.content.image == "itzg/minecraft-server:latest"
      && r.payload.body.content.ports == ["25565:25565"]
      && r.payload.body.content.volumes[0] == HostVolume("/etc/localtime:/etc/localtime:ro")
      && DataVolume(cfg.volumePath, safeName) in r.payload.body.content.volumes
  {
    var r := NewStackRequest(cfg, token, endpointId, config, meta);
    assert r.payload.body.content.volumes[1] == DataVolume(cfg.volumePath, CreateStackName(meta.name.value));
  }

  /** The service, seen as a state. */
  class PortainerService {
    var token: Option<string>
    const client: ScriptedClient
    const cfg: Config

    constructor(client: ScriptedClient, cfg: Config)
      ensures token == None && this.client == client && this.cfg == cfg
    {
      token := None;
      this.client := client;
      this.cfg := cfg;
    }

    function Snapshot(): State
      reads this, client
    {
      State(token, client.script, client.log)
    }

    method GetAuthToken() returns (r: Result<Option<string>, Error>)
      modifies this, client
      decreases if HasToken(token) then 1 else 0
      ensures Outcome(r, Snapshot()) == Authenticate(cfg, old(Snapshot()))
    {
      if !HasToken(token) {
        var reply := client.Send(LoginRequest(cfg));
        match reply {
          case Err(message) =>
            r := Failure(HttpError(message));
          case Ok(_, body) =>
            token := JwtOf(body);
            r := Success(token);
        }
        return;
      }
      var reply := client.Send(ProbeRequest(token));
      match reply {
        case Err(message) =>
          if !Mentions401(message) {
            return Failure(HttpError(message));
          }
          token := None;
          r := GetAuthToken();
        case Ok(status, body) =>
          if status != 200 {
            token := JwtOf(body);
          }
          r := Success(token);
      }
    }

    method ListMinecraftStacks() returns (r: Result<seq<Record>, Error>)
      modifies this, client
      ensures Outcome(r, Snapshot()) == ListStacks(cfg, old(Snapshot()))
    {
      var auth := GetAuthToken();
      if auth.Failure? {
        return Failure(auth.error);
      }
      var reply := client.Send(ListRequest(auth.value));
      if reply.Err? {
        return Failure(HttpError(reply.message));
      }
      var data := StackListOf(reply.body);
      if data.Failure? {
        return Failure(data.error);
      }
      r := Success(Listings(Kept(data.value)));
    }

    method StartStack(id: Value) returns (r: Result<(), Error>)
      modifies this, client
      ensures Outcome(r, Snapshot()) == Start(cfg, old(Snapshot()), id)
    {
      var auth := GetAuthToken();
      if auth.Failure? {
        return Failure(auth.error);
      }
      var reply := client.Send(Request(POST, StartPath(id), Bearer(auth.value), false, NoPayload));
      r := if reply.Err? then Failure(HttpError(reply.message)) else Success(());
    }

    method StopStack(id: Value) returns (r: Result<(), Error>)
      modifies this, client
      ensures Outcome(r, Snapshot()) == Stop(cfg, old(Snapshot()), id)
    {
      var auth := GetAuthToken();
      if auth.Failure? {
        return Failure(auth.error);
      }
      var reply := client.Send(Request(POST, StopPath(id), Bearer(auth.value), false, NoPayload));
      r := if reply.Err? then Failure(HttpError(reply.message)) else Success(());
    }

    method GetEndpointId() returns (r: Result<Value, Error>)
      modifies this, client
      ensures Outcome(r, Snapshot()) == EndpointId(cfg, old(Snapshot()))
    {
      var auth := GetAuthToken();
      if auth.Failure? {
        return Failure(auth.error);
      }
      var reply := client.Send(EndpointsRequest(auth.value));
      r := if reply.Err? then Failure(HttpError(reply.message)) else FirstEndpointOf(reply.body);
    }

    /** The stopping step of `createStack`. */
    method StopActiveStacks(stacks: seq<Record>) returns (r: Result<(), Error>)
      modifies this, client
      ensures Outcome(r, Snapshot()) == StopActive(cfg, old(Snapshot()), stacks)
    {
      ghost var before := Snapshot();
      var i := 0;
      while i < |stacks|
        invariant 0 <= i <= |stacks|
        invariant StopActive(cfg, before, stacks[..i]) == Outcome(Success(()), Snapshot())
      {
        assert stacks[..i + 1][..i] == stacks[..i];
        if Field(stacks[i], "status") == Num(Active) {
          var stopped := StopStack(Field(stacks[i], "id"));
          if stopped.Failure? {
            StopActiveStops(cfg, before, stacks, i + 1);
            return stopped;
          }
        }
        i := i + 1;
      }
      assert stacks[..i] == stacks;
      r := Success(());
    }

    method CreateStack(config: seq<(string, Value)>, meta: StackMetadataInput) returns (r: Result<(), Error>)
      modifies this, client
      ensures Outcome(r, Snapshot()) == Create(cfg, old(Snapshot()), config, meta)
    {
      var token := GetAuthToken();
      if token.Failure? {
        return Failure(token.error);
      }
      var endpointId := GetEndpointId();
      if endpointId.Failure? {
        return Failure(endpointId.error);
      }
      var stacks := ListMinecraftStacks();
      if stacks.Failure? {
        return Failure(stacks.error);
      }
      var stopped := StopActiveStacks(stacks.value);
      if stopped.Failure? {
        return stopped;
      }
      if MissingName(meta) {
        return Failure(BadRequest(NameRequired));
      }
      var name := CreateStackName(meta.name.value);
      var content := StackDescriptor(cfg, name, name, meta, config);
      var reply := client.Send(CreateRequest(token.value, endpointId.value, name, content));
      r := if reply.Err? then Failure(HttpError(reply.message)) else Success(());
    }
  }
}
