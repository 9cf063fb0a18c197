/**
 * The current revision of the Portainer service: a cached token checked
 * against `/api/users` and renewed by logging in again, stacks recognised by
 * their marker environment entry and enriched with their `x-metadata`, and a
 * new stack's descriptor that keeps the raw name in its metadata.
 *
 * Each operation has a specification function over `State`; the methods of
 * `PortainerService` run the same steps against a `ScriptedClient` and are
 * proved to end in the state that function describes.
 */
module Portainer {
  import opened Wrappers
  import opened Utilities
  import opened Api

  // ---------------------------------------------------------------------
  // getAuthToken
  // ---------------------------------------------------------------------

  /** The check of a cached token. */
  function ProbeRequest(token: Option<string>): Request {
    Request(GET, UsersPath, Bearer(token), false, NoPayload)
  }

  /** The probe's answer makes the service drop its token and log in again. */
  predicate Refused(reply: Reply) {
    (reply.Ok? && reply.status != 200) || (reply.Err? && Mentions401(reply.message))
  }

  /**
   * `getAuthToken`: log in when there is no usable token; otherwise probe it,
   * and log in once more when the probe refuses it. The decreasing measure
   * is the recursion bound: the retry starts without a token, so it logs in
   * and returns.
   */
  function Authenticate(cfg: Config, st: State): (o: Outcome<Option<string>>)
    decreases if HasToken(st.token) then 1 else 0
    ensures |st.log| + 1 <= |o.state.log| <= |st.log| + 2
    ensures forall t :: Targets(o.state.log, t) == Targets(st.log, t)
    ensures o.result.Success? ==> o.state.token == o.result.value
    // No usable token: one login, whose `jwt` becomes the token.
    ensures !HasToken(st.token) ==> o.state.log == st.log + [LoginRequest(cfg)]
    ensures !HasToken(st.token) && NextReply(st).Ok?
      ==> o.result == Success(JwtOf(NextReply(st).body))
    // A rejected login propagates.
    ensures !HasToken(st.token) && NextReply(st).Err?
      ==> o.result == Failure(HttpError(NextReply(st).message))
    // A token the probe accepts: one request, the token is kept.
    ensures HasToken(st.token) && NextReply(st).Ok? && NextReply(st).status == 200
      ==> o.state.log == st.log + [ProbeRequest(st.token)]
          && o.result == Success(st.token) && o.state.token == st.token
    // Another probe error: it propagates and no login follows.
    ensures HasToken(st.token) && NextReply(st).Err? && !Mentions401(NextReply(st).message)
      ==> o.state.log == st.log + [ProbeRequest(st.token)]
          && o.result == Failure(HttpError(NextReply(st).message))
    // A refused token: exactly one login follows, and its `jwt` is returned.
    ensures HasToken(st.token) && Refused(NextReply(st))
      ==> o.state.log == st.log + [ProbeRequest(st.token), LoginRequest(cfg)]
          && (NextReply(Sent(st, ProbeRequest(st.token))).Ok?
              ==> o.result == Success(JwtOf(NextReply(Sent(st, ProbeRequest(st.token))).body)))
          && (NextReply(Sent(st, ProbeRequest(st.token))).Err?
              ==> o.result == Failure(HttpError(NextReply(Sent(st, ProbeRequest(st.token))).message)))
    ensures o.result.Failure? ==> !o.result.error.BadRequest?
  {
    if !HasToken(st.token) then
      var reply := NextReply(st);
      var after := Sent(st, LoginRequest(cfg));
      SentUntargeted(st, LoginRequest(cfg));
      match reply
      case Err(message) => Outcome(Failure(HttpError(message)), after)
      case Ok(_, body) =>
        Outcome(Success(JwtOf(body)), State(JwtOf(body), after.script, after.log))
    else
      var reply := NextReply(st);
      var after := Sent(st, ProbeRequest(st.token));
      SentUntargeted(st, ProbeRequest(st.token));
      if Refused(reply) then
        Authenticate(cfg, State(None, after.script, after.log))
      else if reply.Err? then
        Outcome(Failure(HttpError(reply.message)), after)
      else
        Outcome(Success(st.token), after)
  }

  // ---------------------------------------------------------------------
  // getStackMetadata
  // ---------------------------------------------------------------------

  /** The `x-metadata` block of the stack file in `reply`, if it is one. */
  function MetadataOf(reply: Reply): (r: Result<Option<Record>, Error>)
    ensures reply.Err? ==> r == Failure(HttpError(reply.message))
    ensures r.Success? <==> reply.Ok? && reply.body.StackFileData?
    ensures r.Success? ==> r.value == reply.body.metadata
    ensures r.Failure? && reply.Ok? ==> r.error == TypeError
  {
    match reply
    case Err(message) => Failure(HttpError(message))
    case Ok(_, StackFileData(metadata)) => Success(metadata)
    case Ok(_, _) => Failure(TypeError)
  }

  /** The request of a stack's compose file. */
  function FileRequest(token: Option<string>, id: Value): Request {
    Request(GET, StackFilePath(id), Bearer(token), false, NoPayload)
  }

  /**
   * `getStackMetadata`: the `x-metadata` of the stack's file, read with the
   * token `getAuthToken` gives.
   */
  function StackMetadata(cfg: Config, st: State, id: Value): (o: Outcome<Option<Record>>)
    ensures forall t :: t != FileOf ==> Targets(o.state.log, t) == Targets(st.log, t)
    ensures o.result.Success? ==> Targets(o.state.log, FileOf) == Targets(st.log, FileOf) + [id]
    ensures o.result.Failure? ==> !o.result.error.BadRequest?
  {
    var a := Authenticate(cfg, st);
    if a.result.Failure? then
      Propagate(a)
    else
      var request := FileRequest(a.result.value, id);
      SentFile(a.state, request);
      Outcome(MetadataOf(NextReply(a.state)), Sent(a.state, request))
  }

  /**
   * After `getAuthToken`, `getStackMetadata` asks for the stack's file once,
   * with the token, and returns the `x-metadata` the reply carries; a failed
   * authentication is passed on before any file is asked for.
   */
  lemma StackMetadataResult(cfg: Config, st: State, id: Value)
    ensures var a := Authenticate(cfg, st);
      var o := StackMetadata(cfg, st, id);
      a.result.Failure? ==> o.result == Failure(a.result.error) && o.state == a.state
    ensures var a := Authenticate(cfg, st);
      var o := StackMetadata(cfg, st, id);
      var reply := NextReply(a.state);
      a.result.Success? ==>
        o.state.log == a.state.log + [FileRequest(a.result.value, id)]
        && (reply.Ok? && reply.body.StackFileData? ==> o.result == Success(reply.body.metadata))
        && (reply.Ok? && !reply.body.StackFileData? ==> o.result == Failure(TypeError))
        && (reply.Err? ==> o.result == Failure(HttpError(reply.message)))
  {}

  // ---------------------------------------------------------------------
  // listMinecraftStacks
  // ---------------------------------------------------------------------

  /** The filter of the listing: the stacks that carry the marker, in order. */
  function Marked(stacks: seq<RawStack>): (kept: seq<RawStack>)
    ensures |kept| <= |stacks|
  {
    if stacks == [] then []
    else
      var last := stacks[|stacks| - 1];
      Marked(stacks[..|stacks| - 1]) + (if HasMarker(last) then [last] else [])
  }

  /** The filter keeps exactly the marked stacks... */
  lemma {:induction false} MarkedExact(stacks: seq<RawStack>, stack: RawStack)
    ensures stack in Marked(stacks) <==> stack in stacks && HasMarker(stack)
  {
    if stacks != [] {
      var front := stacks[..|stacks| - 1];
      MarkedExact(front, stack);
      assert stacks == front + [stacks[|stacks| - 1]];
    }
  }

  /** ...in their original order. */
  lemma {:induction false} MarkedAppend(a: seq<RawStack>, b: seq<RawStack>)
    decreases |b|
    ensures Marked(a + b) == Marked(a) + Marked(b)
  {
    if b == [] {
      assert a + b == a;
    } else {
      var front := b[..|b| - 1];
      var last := b[|b| - 1];
      assert (a + b)[..|a + b| - 1] == a + front;
      MarkedAppend(a, front);
      AppendAssoc(Marked(a), Marked(front), if HasMarker(last) then [last] else []);
    }
  }

  /** The projection of the listing. */
  function Summary(stack: RawStack): Record {
    map["id" := Num(stack.id), "stackName" := Str(stack.name), "status" := Num(stack.status)]
  }

  /** The projection keeps the stack's id, which the metadata is read by. */
  lemma SummaryId(stack: RawStack)
    ensures Field(Summary(stack), "id") == Num(stack.id)
  {}

  function Summaries(stacks: seq<RawStack>): (records: seq<Record>)
    ensures |records| == |stacks|
    ensures forall i :: 0 <= i < |stacks| ==> records[i] == Summary(stacks[i])
  {
    if stacks == [] then []
    else Summaries(stacks[..|stacks| - 1]) + [Summary(stacks[|stacks| - 1])]
  }

  /**
   * The `x-metadata` of each listed stack, one metadata request per stack;
   * the first failure ends the walk.
   */
  function FetchMetadata(cfg: Config, st: State, stacks: seq<Record>): (o: Outcome<seq<Option<Record>>>)
    decreases |stacks|
    ensures forall t :: t != FileOf ==> Targets(o.state.log, t) == Targets(st.log, t)
    ensures o.result.Success? ==> |o.result.value| == |stacks|
    ensures o.result.Failure? ==> !o.result.error.BadRequest?
  {
    if stacks == [] then Outcome(Success([]), st)
    else
      var o := FetchMetadata(cfg, st, stacks[..|stacks| - 1]);
      if o.result.Failure? then o
      else
        var m := StackMetadata(cfg, o.state, Field(stacks[|stacks| - 1], "id"));
        if m.result.Failure? then Propagate(m)
        else Outcome(Success(o.result.value + [m.result.value]), m.state)
  }

  /** A walk that succeeds asks for each stack's file once, in order. */
  lemma {:induction false} FetchMetadataRequests(cfg: Config, st: State, stacks: seq<Record>)
    decreases |stacks|
    ensures var o := FetchMetadata(cfg, st, stacks);
      o.result.Success? ==> Targets(o.state.log, FileOf) == Targets(st.log, FileOf) + Ids(stacks)
  {
    if stacks != [] {
      var front := stacks[..|stacks| - 1];
      var id := Field(stacks[|stacks| - 1], "id");
      FetchMetadataRequests(cfg, st, front);
      var o := FetchMetadata(cfg, st, front);
      if o.result.Success? && StackMetadata(cfg, o.state, id).result.Success? {
        assert Ids(stacks) == Ids(front) + [id];
        AppendAssoc(Targets(st.log, FileOf), Ids(front), [id]);
      }
    }
  }

  /**
   * The i-th entry of a walk that succeeds is the metadata of the i-th
   * stack, read in the state the first i reads left.
   */
  lemma {:induction false} FetchMetadataValues(cfg: Config, st: State, stacks: seq<Record>, i: nat)
    requires i < |stacks| && FetchMetadata(cfg, st, stacks).result.Success?
    decreases |stacks|
    ensures var before := FetchMetadata(cfg, st, stacks[..i]);
      var m := StackMetadata(cfg, before.state, Field(stacks[i], "id"));
      before.result.Success? && m.result.Success?
      && FetchMetadata(cfg, st, stacks).result.value[i] == m.result.value
  {
    var front := stacks[..|stacks| - 1];
    var o := FetchMetadata(cfg, st, front);
    assert o.result.Success?;
    var m := StackMetadata(cfg, o.state, Field(stacks[|stacks| - 1], "id"));
    assert m.result.Success?;
    assert FetchMetadata(cfg, st, stacks).result.value == o.result.value + [m.result.value];
    if i == |stacks| - 1 {
      assert stacks[..i] == front;
    } else {
      assert front[..i] == stacks[..i] && front[i] == stacks[i];
      FetchMetadataValues(cfg, st, front, i);
    }
  }

  /** Once a prefix of the walk fails, the walk ends there. */
  lemma {:induction false} FetchMetadataStops(cfg: Config, st: State, stacks: seq<Record>, i: nat)
    requires i <= |stacks| && FetchMetadata(cfg, st, stacks[..i]).result.Failure?
    ensures FetchMetadata(cfg, st, stacks) == FetchMetadata(cfg, st, stacks[..i])
    decreases |stacks|
  {
    if i == |stacks| {
      assert stacks[..i] == stacks;
    } else {
      var front := stacks[..|stacks| - 1];
      assert front[..i] == stacks[..i];
      FetchMetadataStops(cfg, st, front, i);
    }
  }

  /** `{...stack, ...metadata}` for each listed stack. */
  function Overlay(stacks: seq<Record>, metadata: seq<Option<Record>>): (merged: seq<Record>)
    requires |metadata| == |stacks|
  {
    seq(|stacks|, i requires 0 <= i < |stacks| => stacks[i] + metadata[i].GetOr(map[]))
  }

  /** Metadata fields win; every other field of the stack survives; nothing else is added. */
  lemma OverlayFields(stacks: seq<Record>, metadata: seq<Option<Record>>, i: nat, k: string)
    requires |metadata| == |stacks| && i < |stacks|
    ensures |Overlay(stacks, metadata)| == |stacks|
    ensures k in Overlay(stacks, metadata)[i]
      <==> k in stacks[i] || (metadata[i].Some? && k in metadata[i].value)
    ensures metadata[i].Some? && k in metadata[i].value
      ==> Overlay(stacks, metadata)[i][k] == metadata[i].value[k]
    ensures k in stacks[i] && (metadata[i].None? || k !in metadata[i].value)
      ==> Overlay(stacks, metadata)[i][k] == stacks[i][k]
  {}

  /** The i-th entry of the overlaid projection. */
  lemma OverlayAt(stacks: seq<RawStack>, metadata: seq<Option<Record>>, i: nat)
    requires |metadata| == |stacks| && i < |stacks|
    ensures |Overlay(Summaries(stacks), metadata)| == |stacks|
    ensures Overlay(Summaries(stacks), metadata)[i] == Summary(stacks[i]) + metadata[i].GetOr(map[])
  {}

  /**
   * A projected stack overlaid with metadata: each metadata key holds the
   * metadata's value, and `id`, `stackName` and `status` that the metadata
   * leaves alone hold the stack's own.
   */
  lemma SummaryOverlay(stack: RawStack, metadata: Option<Record>, k: string)
    ensures var entry := Summary(stack) + metadata.GetOr(map[]);
      (metadata.Some? && k in metadata.value ==> k in entry && entry[k] == metadata.value[k])
      && (metadata.None? || k !in metadata.value ==>
            (k == "id" ==> entry[k] == Num(stack.id))
            && (k == "stackName" ==> entry[k] == Str(stack.name))
            && (k == "status" ==> entry[k] == Num(stack.status)))
      && (k in entry <==> k in {"id", "stackName", "status"} || (metadata.Some? && k in metadata.value))
  {}

  /** The request of the stack list. */
  function ListRequest(token: Option<string>): Request {
    Request(GET, StacksPath, Bearer(token), false, NoPayload)
  }

  /**
   * `listMinecraftStacks`: the marked stacks of the reply, projected and
   * merged with their metadata; a reply without stacks lists none.
   */
  function ListStacks(cfg: Config, st: State): (o: Outcome<seq<Record>>)
    ensures forall t :: t != FileOf ==> Targets(o.state.log, t) == Targets(st.log, t)
    ensures o.result.Failure? ==> !o.result.error.BadRequest?
  {
    var a := Authenticate(cfg, st);
    if a.result.Failure? then
      Propagate(a)
    else
      var reply := NextReply(a.state);
      var after := Sent(a.state, ListRequest(a.result.value));
      SentUntargeted(a.state, ListRequest(a.result.value));
      if reply.Err? then Outcome(Failure(HttpError(reply.message)), after)
      else
        match StackListOf(reply.body)
        case Failure(e) => Outcome(Failure(e), after)
        case Success(stacks) =>
          var kept := Summaries(Marked(stacks));
          var f := FetchMetadata(cfg, after, kept);
          if f.result.Failure? then Propagate(f)
          else Outcome(Success(Overlay(kept, f.result.value)), f.state)
  }

  /** The state in which the listing starts reading metadata. */
  function Listed(cfg: Config, st: State): (after: State)
    requires Authenticate(cfg, st).result.Success?
    ensures after.log == Authenticate(cfg, st).state.log + [ListRequest(Authenticate(cfg, st).result.value)]
  {
    var a := Authenticate(cfg, st);
    Sent(a.state, ListRequest(a.result.value))
  }

  /**
   * A listing of the stacks `raw` succeeds exactly when reading the metadata
   * of the marked ones does; it then holds those stacks, projected and
   * overlaid with that metadata, and has asked for each of their files once.
   */
  lemma ListStacksResult(cfg: Config, st: State, raw: seq<RawStack>)
    requires var a := Authenticate(cfg, st);
      a.result.Success? && NextReply(a.state).Ok? && StackListOf(NextReply(a.state).body) == Success(raw)
    ensures var o := ListStacks(cfg, st);
      var f := FetchMetadata(cfg, Listed(cfg, st), Summaries(Marked(raw)));
      (o.result.Success? <==> f.result.Success?)
      && (f.result.Failure? ==> o.result == Failure(f.result.error))
      && (o.result.Success? ==>
            o.result.value == Overlay(Summaries(Marked(raw)), f.result.value)
            && Targets(o.state.log, FileOf) == Targets(st.log, FileOf) + Ids(Summaries(Marked(raw))))
  {
    var a := Authenticate(cfg, st);
    SentUntargeted(a.state, ListRequest(a.result.value));
    var kept := Summaries(Marked(raw));
    FetchMetadataRequests(cfg, Listed(cfg, st), kept);
  }

  /**
   * The i-th listed stack is the i-th marked stack of `raw`, projected and
   * overlaid with its own `x-metadata`: the metadata read with the request of
   * that stack's file, after the files of the stacks before it.
   */
  lemma ListStacksEntry(cfg: Config, st: State, raw: seq<RawStack>, i: nat)
    requires var a := Authenticate(cfg, st);
      a.result.Success? && NextReply(a.state).Ok? && StackListOf(NextReply(a.state).body) == Success(raw)
    requires ListStacks(cfg, st).result.Success? && i < |Marked(raw)|
    ensures |ListStacks(cfg, st).result.value| == |Marked(raw)|
    ensures var stack := Marked(raw)[i];
      var before := FetchMetadata(cfg, Listed(cfg, st), Summaries(Marked(raw))[..i]);
      var m := StackMetadata(cfg, before.state, Num(stack.id));
      before.result.Success? && m.result.Success?
      && ListStacks(cfg, st).result.value[i] == Summary(stack) + m.result.value.GetOr(map[])
  {
    var kept := Summaries(Marked(raw));
    var f := FetchMetadata(cfg, Listed(cfg, st), kept);
    ListStacksResult(cfg, st, raw);
    var listed := ListStacks(cfg, st).result.value;
    assert f.result.Success? && listed == Overlay(kept, f.result.value);
    FetchMetadataValues(cfg, Listed(cfg, st), kept, i);
    assert kept[i] == Summary(Marked(raw)[i]);
    SummaryId(Marked(raw)[i]);
    OverlayAt(Marked(raw), f.result.value, i);
  }

  // ---------------------------------------------------------------------
  // startStack, stopStack, getEndpointId
  // ---------------------------------------------------------------------

  function Start(cfg: Config, st: State, id: Value): (o: Outcome<()>)
    ensures forall t :: t != StartOf ==> Targets(o.state.log, t) == Targets(st.log, t)
    ensures o.result.Success? ==> Targets(o.state.log, StartOf) == Targets(st.log, StartOf) + [id]
    ensures o.result.Failure? ==> !o.result.error.BadRequest?
  {
    var a := Authenticate(cfg, st);
    if a.result.Failure? then
      Propagate(a)
    else
      var request := Request(POST, StartPath(id), Bearer(a.result.value), false, NoPayload);
      var reply := NextReply(a.state);
      SentStart(a.state, request);
      Outcome(if reply.Err? then Failure(HttpError(reply.message)) else Success(()), Sent(a.state, request))
  }

  function Stop(cfg: Config, st: State, id: Value): (o: Outcome<()>)
    ensures forall t :: t != StopOf ==> Targets(o.state.log, t) == Targets(st.log, t)
    ensures o.result.Success? ==> Targets(o.state.log, StopOf) == Targets(st.log, StopOf) + [id]
    ensures o.result.Failure? ==> !o.result.error.BadRequest?
  {
    var a := Authenticate(cfg, st);
    if a.result.Failure? then
      Propagate(a)
    else
      var request := Request(POST, StopPath(id), Bearer(a.result.value), false, NoPayload);
      var reply := NextReply(a.state);
      SentStop(a.state, request);
      Outcome(if reply.Err? then Failure(HttpError(reply.message)) else Success(()), Sent(a.state, request))
  }

  /**
   * After `getAuthToken`, `startStack` sends `POST /api/stacks/<id>/start` once,
   * with the token; a response succeeds, a rejection propagates, and a failed
   * authentication is passed on before anything is sent.
   */
  lemma StartResult(cfg: Config, st: State, id: Value)
    ensures var a := Authenticate(cfg, st);
      var o := Start(cfg, st, id);
      a.result.Failure? ==> o.result == Failure(a.result.error) && o.state == a.state
    ensures var a := Authenticate(cfg, st);
      var o := Start(cfg, st, id);
      var reply := NextReply(a.state);
      a.result.Success? ==>
        o.state.log == a.state.log + [Request(POST, StartPath(id), Bearer(a.result.value), false, NoPayload)]
        && (reply.Ok? ==> o.result == Success(()))
        && (reply.Err? ==> o.result == Failure(HttpError(reply.message)))
  {}

  /**
   * After `getAuthToken`, `stopStack` sends `POST /api/stacks/<id>/stop` once,
   * with the token; a response succeeds, a rejection propagates, and a failed
   * authentication is passed on before anything is sent.
   */
  lemma StopResult(cfg: Config, st: State, id: Value)
    ensures var a := Authenticate(cfg, st);
      var o := Stop(cfg, st, id);
      a.result.Failure? ==> o.result == Failure(a.result.error) && o.state == a.state
    ensures var a := Authenticate(cfg, st);
      var o := Stop(cfg, st, id);
      var reply := NextReply(a.state);
      a.result.Success? ==>
        o.state.log == a.state.log + [Request(POST, StopPath(id), Bearer(a.result.value), false, NoPayload)]
        && (reply.Ok? ==> o.result == Success(()))
        && (reply.Err? ==> o.result == Failure(HttpError(reply.message)))
  {}

  /** `getEndpointId`: the `Id` of the first endpoint. */
  function EndpointId(cfg: Config, st: State): (o: Outcome<Value>)
    ensures forall t :: Targets(o.state.log, t) == Targets(st.log, t)
    ensures o.result.Failure? ==> !o.result.error.BadRequest?
  {
    var a := Authenticate(cfg, st);
    if a.result.Failure? then
      Propagate(a)
    else
      var request := EndpointsRequest(a.result.value);
      var reply := NextReply(a.state);
      SentUntargeted(a.state, request);
      Outcome(if reply.Err? then Failure(HttpError(reply.message)) else FirstEndpointOf(reply.body),
              Sent(a.state, request))
  }

  /**
   * After `getAuthToken`, `getEndpointId` asks for the endpoint list once and
   * returns the `Id` of its first endpoint; an empty or missing list cannot
   * be indexed, and a failed authentication is passed on.
   */
  lemma EndpointIdResult(cfg: Config, st: State)
    ensures var a := Authenticate(cfg, st);
      var o := EndpointId(cfg, st);
      a.result.Failure? ==> o.result == Failure(a.result.error) && o.state == a.state
    ensures var a := Authenticate(cfg, st);
      var o := EndpointId(cfg, st);
      var reply := NextReply(a.state);
      a.result.Success? ==>
        o.state.log == a.state.log + [EndpointsRequest(a.result.value)]
        && (reply.Ok? && reply.body.EndpointListData? && |reply.body.endpoints| > 0
            ==> o.result == Success(reply.body.endpoints[0]))
        && (reply.Ok? && !(reply.body.EndpointListData? && |reply.body.endpoints| > 0)
            ==> o.result == Failure(TypeError))
        && (reply.Err? ==> o.result == Failure(HttpError(reply.message)))
  {}

  // ---------------------------------------------------------------------
  // createStack
  // ---------------------------------------------------------------------

  /** Stopping each listed stack whose status is active; the first failure ends the walk. */
  function StopActive(cfg: Config, st: State, stacks: seq<Record>): (o: Outcome<()>)
    decreases |stacks|
    ensures forall t :: t != StopOf ==> Targets(o.state.log, t) == Targets(st.log, t)
    ensures o.result.Failure? ==> !o.result.error.BadRequest?
  {
    if stacks == [] then Outcome(Success(()), st)
    else
      var o := StopActive(cfg, st, stacks[..|stacks| - 1]);
      var stack := stacks[|stacks| - 1];
      if o.result.Failure? || Field(stack, "status") != Num(Active) then o
      else Stop(cfg, o.state, Field(stack, "id"))
  }

  /** A walk that succeeds stops exactly the active stacks, each once, in order. */
  lemma {:induction false} StopActiveTargets(cfg: Config, st: State, stacks: seq<Record>)
    decreases |stacks|
    ensures var o := StopActive(cfg, st, stacks);
      o.result.Success? ==> Targets(o.state.log, StopOf) == Targets(st.log, StopOf) + ActiveIds(stacks)
  {
    if stacks != [] {
      var front := stacks[..|stacks| - 1];
      var stack := stacks[|stacks| - 1];
      StopActiveTargets(cfg, st, front);
      var o := StopActive(cfg, st, front);
      if o.result.Success? && Field(stack, "status") == Num(Active) {
        AppendAssoc(Targets(st.log, StopOf), ActiveIds(front), [Field(stack, "id")]);
      }
    }
  }

  lemma {:induction false} StopActiveStops(cfg: Config, st: State, stacks: seq<Record>, i: nat)
    requires i <= |stacks| && StopActive(cfg, st, stacks[..i]).result.Failure?
    ensures StopActive(cfg, st, stacks) == StopActive(cfg, st, stacks[..i])
    decreases |stacks|
  {
    if i == |stacks| {
      assert stacks[..i] == stacks;
    } else {
      var front := stacks[..|stacks| - 1];
      assert front[..i] == stacks[..i];
      StopActiveStops(cfg, st, front, i);
    }
  }

  /** The awaited steps before the name check: the token, the endpoint and the listed stacks. */
  function Prepare(cfg: Config, st: State): (o: Outcome<(Option<string>, Value, seq<Record>)>)
    ensures forall t :: t != FileOf ==> Targets(o.state.log, t) == Targets(st.log, t)
    ensures o.result.Failure? ==> !o.result.error.BadRequest?
  {
    var a := Authenticate(cfg, st);
    if a.result.Failure? then
      Propagate(a)
    else
      var e := EndpointId(cfg, a.state);
      if e.result.Failure? then Propagate(e)
      else
        var l := ListStacks(cfg, e.state);
        if l.result.Failure? then Propagate(l)
        else Outcome(Success((a.result.value, e.result.value, l.result.value)), l.state)
  }

  /** The request that creates the stack; the raw name stays in `x-metadata`. */
  function NewStackRequest(
    cfg: Config, token: Option<string>, endpointId: Value,
    config: seq<(string, Value)>, meta: StackMetadataInput): Request
    requires !MissingName(meta)
  {
    var safeName := CreateStackName(meta.name.value);
    CreateRequest(token, endpointId, safeName, StackDescriptor(cfg, meta.name.value, safeName, meta, config))
  }

  /**
   * `createStack` after the listing: stop the active stacks, reject a
   * missing name, then post the new stack with the first token.
   */
  function Finish(
    cfg: Config, st: State, token: Option<string>, endpointId: Value, stacks: seq<Record>,
    config: seq<(string, Value)>, meta: StackMetadataInput): (o: Outcome<()>)
    ensures Targets(o.state.log, StartOf) == Targets(st.log, StartOf)
  {
    var s := StopActive(cfg, st, stacks);
    if s.result.Failure? then Propagate(s)
    else if MissingName(meta) then Outcome(Failure(BadRequest(NameRequired)), s.state)
    else
      var request := NewStackRequest(cfg, token, endpointId, config, meta);
      var reply := NextReply(s.state);
      SentCreate(s.state, request);
      Outcome(if reply.Err? then Failure(HttpError(reply.message)) else Success(()), Sent(s.state, request))
  }

  /** `createStack`. */
  function Create(cfg: Config, st: State, config: seq<(string, Value)>, meta: StackMetadataInput): (o: Outcome<()>)
    ensures Targets(o.state.log, StartOf) == Targets(st.log, StartOf)
  {
    var p := Prepare(cfg, st);
    if p.result.Failure? then Propagate(p)
    else Finish(cfg, p.state, p.result.value.0, p.result.value.1, p.result.value.2, config, meta)
  }

  lemma FinishRejects(
    cfg: Config, st: State, token: Option<string>, endpointId: Value, stacks: seq<Record>,
    config: seq<(string, Value)>, meta: StackMetadataInput)
    requires MissingName(meta)
    ensures var o := Finish(cfg, st, token, endpointId, stacks, config, meta);
      o.result.Failure? && Targets(o.state.log, CreateOf) == Targets(st.log, CreateOf)
      && (o.result == Failure(BadRequest(NameRequired)) <==> StopActive(cfg, st, stacks).result.Success?)
  {}

  lemma FinishStops(
    cfg: Config, st: State, token: Option<string>, endpointId: Value, stacks: seq<Record>,
    config: seq<(string, Value)>, meta: StackMetadataInput)
    requires var o := Finish(cfg, st, token, endpointId, stacks, config, meta);
      o.result.Success? || o.result == Failure(BadRequest(NameRequired))
    ensures Targets(Finish(cfg, st, token, endpointId, stacks, config, meta).state.log, StopOf)
      == Targets(st.log, StopOf) + ActiveIds(stacks)
  {
    var s := StopActive(cfg, st, stacks);
    StopActiveTargets(cfg, st, stacks);
    if !MissingName(meta) {
      SentCreate(s.state, NewStackRequest(cfg, token, endpointId, config, meta));
    }
  }

  lemma FinishPosts(
    cfg: Config, st: State, token: Option<string>, endpointId: Value, stacks: seq<Record>,
    config: seq<(string, Value)>, meta: StackMetadataInput)
    requires Finish(cfg, st, token, endpointId, stacks, config, meta).result.Success?
    ensures var o := Finish(cfg, st, token, endpointId, stacks, config, meta);
      !MissingName(meta) && |o.state.log| > 0
      && o.state.log[|o.state.log| - 1] == NewStackRequest(cfg, token, endpointId, config, meta)
      && Targets(o.state.log, CreateOf) == Targets(st.log, CreateOf) + [endpointId]
  {
    var s := StopActive(cfg, st, stacks);
    SentCreate(s.state, NewStackRequest(cfg, token, endpointId, config, meta));
  }

  /**
   * A missing name is rejected only once every earlier step has succeeded,
   * and no stack is created then.
   */
  lemma CreateRejectsMissingName(cfg: Config, st: State, config: seq<(string, Value)>, meta: StackMetadataInput)
    requires MissingName(meta)
    ensures var o := Create(cfg, st, config, meta);
      o.result.Failure? && Targets(o.state.log, CreateOf) == Targets(st.log, CreateOf)
    ensures var p := Prepare(cfg, st);
      Create(cfg, st, config, meta).result == Failure(BadRequest(NameRequired))
      <==> p.result.Success? && StopActive(cfg, p.state, p.result.value.2).result.Success?
  {
    var p := Prepare(cfg, st);
    if p.result.Success? {
      FinishRejects(cfg, p.state, p.result.value.0, p.result.value.1, p.result.value.2, config, meta);
    }
  }

  /**
   * When `createStack` gets as far as the name check, it has stopped exactly
   * the listed stacks that were active.
   */
  lemma CreateStopsActive(cfg: Config, st: State, config: seq<(string, Value)>, meta: StackMetadataInput)
    requires var o := Create(cfg, st, config, meta);
      o.result.Success? || o.result == Failure(BadRequest(NameRequired))
    ensures var p := Prepare(cfg, st);
      p.result.Success?
      && Targets(Create(cfg, st, config, meta).state.log, StopOf)
         == Targets(st.log, StopOf) + ActiveIds(p.result.value.2)
  {
    var p := Prepare(cfg, st);
    FinishStops(cfg, p.state, p.result.value.0, p.result.value.1, p.result.value.2, config, meta);
  }

  /** A creation that succeeds posted the new stack last, with the first token and the endpoint. */
  lemma CreatePosts(cfg: Config, st: State, config: seq<(string, Value)>, meta: StackMetadataInput)
    requires Create(cfg, st, config, meta).result.Success?
    ensures var o := Create(cfg, st, config, meta);
      var p := Prepare(cfg, st);
      p.result.Success? && !MissingName(meta) && |o.state.log| > 0
      && o.state.log[|o.state.log| - 1] == NewStackRequest(cfg, p.result.value.0, p.result.value.1, config, meta)
      && Targets(o.state.log, CreateOf) == Targets(st.log, CreateOf) + [p.result.value.1]
  {
    var p := Prepare(cfg, st);
    FinishPosts(cfg, p.state, p.result.value.0, p.result.value.1, p.result.value.2, config, meta);
  }

  /**
   * The posted stack: its name is the safe name, its only environment entry
   * the marker, its `x-metadata` the raw name and the given description and
   * owner (empty when missing), and its
   * server's environment the merged configuration.
   */
  lemma NewStackShape(
    cfg: Config, token: Option<string>, endpointId: Value,
    config: seq<(string, Value)>, meta: StackMetadataInput)
    requires !MissingName(meta)
    ensures var r := NewStackRequest(cfg, token, endpointId, config, meta);
      var name := meta.name.value;
      r.verb == POST && r.path == CreateStackPath(ComposeType, "string", endpointId)
      && r.auth == Bearer(token) && r.json && r.payload.NewStack?
      && r.payload.body.name == CreateStackName(name) && IsSafeName(r.payload.body.name)
      && r.payload.body.env == [EnvEntry(Marker, "1")]
      && r.payload.body.content.metadata.name == name
      && r.payload.body.content.metadata.description == meta.description.GetOr("")
      && r.payload.body.content.metadata.owner == meta.owner.GetOr("")
      && r.payload.body.content.environment == Environment(cfg.defaults, config)
      && r.payload.body.content.version == "3"
      && r.payload.body.content.image == "itzg/minecraft-server:latest"
      && r.payload.body.content.ports == ["25565:25565"]
      && r.payload.body.content.volumes[0] == HostVolume("/etc/localtime:/etc/localtime:ro")
      && DataVolume(cfg.volumePath, CreateStackName(name)) in r.payload.body.content.volumes
  {
    var r := NewStackRequest(cfg, token, endpointId, config, meta);
    assert r.payload.body.content.volumes[1] == DataVolume(cfg.volumePath, CreateStackName(meta.name.value));
  }

  /** The service, seen as a state. */
  class PortainerService {
    var token: Option<string>
    const client: ScriptedClient
    const cfg: Config

    constructor(client: ScriptedClient, cfg: Config)
      ensures token == None && this.client == client && this.cfg == cfg
    {
      token := None;
      this.client := client;
      this.cfg := cfg;
    }

    function Snapshot(): State
      reads this, client
    {
      State(token, client.script, client.log)
    }

    method GetAuthToken() returns (r: Result<Option<string>, Error>)
      modifies this, client
      decreases if HasToken(token) then 1 else 0
      ensures Outcome(r, Snapshot()) == Authenticate(cfg, old(Snapshot()))
    {
      if !HasToken(token) {
        var reply := client.Send(LoginRequest(cfg));
        match reply {
          case Err(message) =>
            r := Failure(HttpError(message));
          case Ok(_, body) =>
            token := JwtOf(body);
            r := Success(token);
        }
        return;
      }
      var reply := client.Send(ProbeRequest(token));
      if Refused(reply) {
        token := None;
        r := GetAuthToken();
      } else if reply.Err? {
        r := Failure(HttpError(reply.message));
      } else {
        r := Success(token);
      }
    }

    method GetStackMetadata(id: Value) returns (r: Result<Option<Record>, Error>)
      modifies this, client
      ensures Outcome(r, Snapshot()) == StackMetadata(cfg, old(Snapshot()), id)
    {
      var auth := GetAuthToken();
      if auth.Failure? {
        return Failure(auth.error);
      }
      var reply := client.Send(FileRequest(auth.value, id));
      r := MetadataOf(reply);
    }

    method ListMinecraftStacks() returns (r: Result<seq<Record>, Error>)
      modifies this, client
      ensures Outcome(r, Snapshot()) == ListStacks(cfg, old(Snapshot()))
    {
      var auth := GetAuthToken();
      if auth.Failure? {
        return Failure(auth.error);
      }
      var reply := client.Send(ListRequest(auth.value));
      if reply.Err? {
        return Failure(HttpError(reply.message));
      }
      var data := StackListOf(reply.body);
      if data.Failure? {
        return Failure(data.error);
      }
      var result := Summaries(Marked(data.value));
      var metadata := FetchAllMetadata(result);
      if metadata.Failure? {
        return Failure(metadata.error);
      }
      r := Success(Overlay(result, metadata.value));
    }

    /** The metadata step of the listing: `getStackMetadata` for each stack, in order. */
    method FetchAllMetadata(stacks: seq<Record>) returns (r: Result<seq<Option<Record>>, Error>)
      modifies this, client
      ensures Outcome(r, Snapshot()) == FetchMetadata(cfg, old(Snapshot()), stacks)
    {
      ghost var before := Snapshot();
      var metadata: seq<Option<Record>> := [];
      var i := 0;
      while i < |stacks|
        invariant 0 <= i <= |stacks|
        invariant FetchMetadata(cfg, before, stacks[..i]) == Outcome(Success(metadata), Snapshot())
      {
        assert stacks[..i + 1][..i] == stacks[..i];
        var m := GetStackMetadata(Field(stacks[i], "id"));
        if m.Failure? {
          FetchMetadataStops(cfg, before, stacks, i + 1);
          return Failure(m.error);
        }
        metadata := metadata + [m.value];
        i := i + 1;
      }
      assert stacks[..i] == stacks;
      r := Success(metadata);
    }

    method StartStack(id: Value) returns (r: Result<(), Error>)
      modifies this, client
      ensures Outcome(r, Snapshot()) == Start(cfg, old(Snapshot()), id)
    {
      var auth := GetAuthToken();
      if auth.Failure? {
        return Failure(auth.error);
      }
      var reply := client.Send(Request(POST, StartPath(id), Bearer(auth.value), false, NoPayload));
      r := if reply.Err? then Failure(HttpError(reply.message)) else Success(());
    }

    method StopStack(id: Value) returns (r: Result<(), Error>)
      modifies this, client
      ensures Outcome(r, Snapshot()) == Stop(cfg, old(Snapshot()), id)
    {
      var auth := GetAuthToken();
      if auth.Failure? {
        return Failure(auth.error);
      }
      var reply := client.Send(Request(POST, StopPath(id), Bearer(auth.value), false, NoPayload));
      r := if reply.Err? then Failure(HttpError(reply.message)) else Success(());
    }

    method GetEndpointId() returns (r: Result<Value, Error>)
      modifies this, client
      ensures Outcome(r, Snapshot()) == EndpointId(cfg, old(Snapshot()))
    {
      var auth := GetAuthToken();
      if auth.Failure? {
        return Failure(auth.error);
      }
      var reply := client.Send(EndpointsRequest(auth.value));
      r := if reply.Err? then Failure(HttpError(reply.message)) else FirstEndpointOf(reply.body);
    }

    /** The stopping step of `createStack`. */
    method StopActiveStacks(stacks: seq<Record>) returns (r: Result<(), Error>)
      modifies this, client
      ensures Outcome(r, Snapshot()) == StopActive(cfg, old(Snapshot()), stacks)
    {
      ghost var before := Snapshot();
      var i := 0;
      while i < |stacks|
        invariant 0 <= i <= |stacks|
        invariant StopActive(cfg, before, stacks[..i]) == Outcome(Success(()), Snapshot())
      {
        assert stacks[..i + 1][..i] == stacks[..i];
        if Field(stacks[i], "status") == Num(Active) {
          var stopped := StopStack(Field(stacks[i], "id"));
          if stopped.Failure? {
            StopActiveStops(cfg, before, stacks, i + 1);
            return stopped;
          }
        }
        i := i + 1;
      }
      assert stacks[..i] == stacks;
      r := Success(());
    }

    method CreateStack(config: seq<(string, Value)>, meta: StackMetadataInput) returns (r: Result<(), Error>)
      modifies this, client
      ensures Outcome(r, Snapshot()) == Create(cfg, old(Snapshot()), config, meta)
    {
      var token := GetAuthToken();
      if token.Failure? {
        return Failure(token.error);
      }
      var endpointId := GetEndpointId();
      if endpointId.Failure? {
        return Failure(endpointId.error);
      }
      var stacks := ListMinecraftStacks();
      if stacks.Failure? {
        return Failure(stacks.error);
      }
      var stopped := StopActiveStacks(stacks.value);
      if stopped.Failure? {
        return stopped;
      }
      if MissingName(meta) {
        return Failure(BadRequest(NameRequired));
      }
      var name := meta.name.value;
      var safeName := CreateStackName(name);
      var content := StackDescriptor(cfg, name, safeName, meta, config);
      var reply := client.Send(CreateRequest(token.value, endpointId.value, safeName, content));
      r := if reply.Err? then Failure(HttpError(reply.message)) else Success(());
    }
  }
}
