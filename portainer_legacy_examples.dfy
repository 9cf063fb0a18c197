/**
 * The expectations of the older service's unit tests, as lemmas about the
 * model: the three token scenarios, the listing fixture, the stopping of
 * the one active stack, the request of a stack with a fresh name, and the
 * merged environment of a stack with some options given.
 *
 * Literals are taken apart in small lemmas so that no proof evaluates a
 * long string at once.
 */
module PortainerLegacyExamples {
  import opened Wrappers
  import opened Utilities
  import opened UtilitiesExamples
  import opened Api
  import opened PortainerLegacy

  /** Lower-casing a string without capitals changes nothing. */
  lemma {:induction false} LowerUnchanged(s: string)
    requires forall i :: 0 <= i < |s| ==> !IsUpper(s[i])
    ensures Lower(s) == s
  {
    if s != [] {
      LowerUnchanged(s[1..]);
      assert s == [s[0]] + s[1..];
    }
  }

  /** A string contains itself, once lower-cased. */
  lemma ContainsLowerSelf(s: string, pattern: string)
    requires s == pattern && Lower(pattern) == pattern
    ensures ContainsIgnoringCase(s, pattern)
  {
    assert s[0..][..|pattern|] == s;
  }

  // ---------------------------------------------------------------------
  // getAuthToken
  // ---------------------------------------------------------------------

  lemma Mentions401Literal(message: string)
    requires message == "status code 401"
    ensures Mentions401(message)
  {
    LowerUnchanged("status code 401");
    ContainsLowerSelf(message, "status code 401");
  }

  /** No token: one login, and the `jwt` of its reply is the token. */
  lemma AuthWithoutToken(cfg: Config, tok: string)
    ensures var o := Authenticate(cfg, State(None, Script([], Ok(200, AuthData(Some(tok)))), []));
      o.state.log == [LoginRequest(cfg)] && o.result == Success(Some(tok)) && o.state.token == Some(tok)
  {}

  /** A valid token: one probe of `/api/status` with that token, which is kept. */
  lemma AuthWithValidToken(cfg: Config, tok: string, fallback: Reply)
    requires tok != ""
    ensures var o := Authenticate(cfg, State(Some(tok), Script([Ok(200, AuthData(None))], fallback), []));
      o.state.log == [ProbeRequest(Some(tok))] && o.result == Success(Some(tok)) && o.state.token == Some(tok)
  {}

  /** An expired token: the probe, then the login; the new `jwt` is returned and kept. */
  lemma AuthWithExpiredToken(cfg: Config, tok: string, newTok: string, message: string, fallback: Reply)
    requires tok != "" && message == "status code 401"
    ensures var o := Authenticate(cfg, State(Some(tok), Script([Err(message), Ok(200, AuthData(Some(newTok)))], fallback), []));
      o.state.log == [ProbeRequest(Some(tok)), LoginRequest(cfg)]
      && o.result == Success(Some(newTok)) && o.state.token == Some(newTok)
  {
    Mentions401Literal(message);
  }

  // ---------------------------------------------------------------------
  // listMinecraftStacks
  // ---------------------------------------------------------------------

  lemma NotMinecraftNginx(name: string)
    requires name == "nginx-proxy"
    ensures !ContainsIgnoringCase(name, "minecraft")
  {
    forall i | 0 <= i <= |name| - 9
      ensures Lower(name[i..][..9]) != "minecraft"
    {
      LowerHasNoUpper(name[i..][..9]);
      assert Lower(name[i..][..9])[0] == ToLowerChar(name[i]);
    }
  }

  lemma NotMinecraftRecipes(name: string)
    requires name == "recipes"
    ensures !ContainsIgnoringCase(name, "minecraft")
  {}

  lemma MinecraftTest(name: string)
    requires name == "minecraft-test"
    ensures ContainsIgnoringCase(name, "minecraft")
  {
    LowerUnchanged("minecraft");
    assert name[0..][..9] == "minecraft";
  }

  /** The stacks of the listing test: only `minecraft-test` matches. */
  lemma KeptFixture(raw: seq<RawStack>)
    requires raw == [RawStack(2, "nginx-proxy", Active, Some([])),
                     RawStack(3, "recipes", Active, Some([])),
                     RawStack(4, "minecraft-test", Inactive, Some([]))]
    ensures Kept(raw) == [raw[2]]
  {
    NotMinecraftNginx(raw[0].name);
    NotMinecraftRecipes(raw[1].name);
    MinecraftTest(raw[2].name);
    var one, two := raw[..1], raw[..2];
    assert one[..0] == [] && two[..1] == one;
    assert Kept(one) == [];
    assert Kept(two) == [];
  }

  /** The listing test: the one record `{id: 4, name: 'minecraft-test', status: inactive}`. */
  lemma ListFixture(cfg: Config, st: State, raw: seq<RawStack>)
    requires raw == [RawStack(2, "nginx-proxy", Active, Some([])),
                     RawStack(3, "recipes", Active, Some([])),
                     RawStack(4, "minecraft-test", Inactive, Some([]))]
    requires var a := Authenticate(cfg, st);
      a.result.Success? && NextReply(a.state) == Ok(200, StackListData(raw))
    ensures ListStacks(cfg, st).result
      == Success([map["id" := Num(4), "name" := Str("minecraft-test"), "status" := Num(Inactive)]])
  {
    ListStacksResult(cfg, st, raw);
    KeptFixture(raw);
    assert [raw[2]][..0] == [];
    assert Listings([raw[2]]) == [Listing(raw[2])];
  }

  // ---------------------------------------------------------------------
  // createStack
  // ---------------------------------------------------------------------

  /** The listed stacks of the creation test: only 42 is active. */
  lemma ActiveFixture(stacks: seq<Record>)
    requires stacks == [map["id" := Num(40), "name" := Str("mctest40"), "status" := Num(Inactive)],
                        map["id" := Num(42), "name" := Str("mctest42"), "status" := Num(Active)],
                        map["id" := Num(44), "name" := Str("mctest44"), "status" := Num(Inactive)]]
    ensures ActiveIds(stacks) == [Num(42)]
  {
    var one, two := stacks[..1], stacks[..2];
    assert one[..0] == [] && two[..1] == one;
    assert ActiveIds(one) == [];
    assert ActiveIds(two) == [Num(42)];
  }

  /** Creating a stack with those stacks listed stops 42 and nothing else. */
  lemma CreateStopsFixture(cfg: Config, st: State, config: seq<(string, Value)>, meta: StackMetadataInput)
    requires var p := Prepare(cfg, st);
      p.result.Success?
      && p.result.value.2 == [map["id" := Num(40), "name" := Str("mctest40"), "status" := Num(Inactive)],
                              map["id" := Num(42), "name" := Str("mctest42"), "status" := Num(Active)],
                              map["id" := Num(44), "name" := Str("mctest44"), "status" := Num(Inactive)]]
    requires var o := Create(cfg, st, config, meta);
      o.result.Success? || o.result == Failure(BadRequest(NameRequired))
    ensures Targets(Create(cfg, st, config, meta).state.log, StopOf) == Targets(st.log, StopOf) + [Num(42)]
  {
    CreateStopsActive(cfg, st, config, meta);
    ActiveFixture(Prepare(cfg, st).result.value.2);
  }

  /** `server-${Date.now()}` is already safe, so it is the body's name and the metadata's name. */
  lemma ServerNameKept(
    cfg: Config, token: Option<string>, endpointId: Value,
    config: seq<(string, Value)>, meta: StackMetadataInput, stamp: string)
    requires forall i :: 0 <= i < |stamp| ==> '0' <= stamp[i] <= '9'
    requires meta.name == Some("server-" + stamp)
    ensures var r := NewStackRequest(cfg, token, endpointId, config, meta);
      r.payload.NewStack?
      && r.payload.body.name == "server-" + stamp
      && r.payload.body.content.metadata.name == "server-" + stamp
      && DataVolume(cfg.volumePath, "server-" + stamp) in r.payload.body.content.volumes
  {
    var name := "server-" + stamp;
    assert forall c :: c in name ==> IsAllowed(c) by {
      forall c | c in name
        ensures IsAllowed(c)
      {
        var i :| 0 <= i < |name| && name[i] == c;
        if i >= 7 {
          assert name[i] == stamp[i - 7];
        }
      }
    }
    CreateStackNameKeepsSafe(name);
    NewStackShape(cfg, token, endpointId, config, meta);
  }

  /** The creation test with some arguments: the given description and owner reach `x-metadata`. */
  lemma GivenMetadataKept(
    cfg: Config, token: Option<string>, endpointId: Value,
    config: seq<(string, Value)>, meta: StackMetadataInput, stamp: string)
    requires forall i :: 0 <= i < |stamp| ==> '0' <= stamp[i] <= '9'
    requires meta == StackMetadataInput(Some("server-" + stamp), Some("something weird"), Some("Nobody"))
    ensures var r := NewStackRequest(cfg, token, endpointId, config, meta);
      r.payload.NewStack?
      && r.payload.body.content.metadata == XMetadata("server-" + stamp, "something weird", "Nobody")
  {
    ServerNameKept(cfg, token, endpointId, config, meta, stamp);
    NewStackShape(cfg, token, endpointId, config, meta);
  }

  const IconUrl: string := "http://findicons.com/files/icons/2438/minecraft/256/minecraft.png"

  lemma UpperIcon()
    ensures forall j :: 0 <= j < |"icon"| ==> !IsUpper("icon"[j])
    ensures Upper("icon") == "ICON"
  {
    UpperByIndex("icon", "ICON");
  }

  lemma EnvKeyIcon(key: string)
    requires key == "icon"
    ensures EnvKey(key) == "ICON"
  {
    UpperIcon();
    SnakeCaseWithoutUpper(key);
  }

  /** The options of the second creation test. */
  predicate SomeOptions(config: seq<(string, Value)>) {
    config == [("icon", Str(IconUrl)), ("allowNether", Bool(false)), ("maxBuildHeight", Num(1024)),
               ("spawnAnimals", Bool(false)), ("pvp", Bool(true))]
  }

  lemma SomeOptionsKeys(config: seq<(string, Value)>)
    requires SomeOptions(config)
    ensures |config| == 5
    ensures EnvKey(config[0].0) == "ICON" && EnvKey(config[1].0) == "ALLOW_NETHER"
    ensures EnvKey(config[2].0) == "MAX_BUILD_HEIGHT" && EnvKey(config[3].0) == "SPAWN_ANIMALS"
    ensures EnvKey(config[4].0) == "PVP"
  {
    EnvKeyIcon(config[0].0);
    EnvKeyAllowNether(config[1].0);
    EnvKeyMaxBuildHeight(config[2].0);
    EnvKeySpawnAnimals(config[3].0);
    EnvKeyPvp(config[4].0);
  }

  lemma EnvValuesOfFive<V>(obj: seq<(string, V)>)
    requires |obj| == 5
    ensures EnvValues(obj) == map[EnvKey(obj[0].0) := obj[0].1][EnvKey(obj[1].0) := obj[1].1]
      [EnvKey(obj[2].0) := obj[2].1][EnvKey(obj[3].0) := obj[3].1][EnvKey(obj[4].0) := obj[4].1]
  {
    var p1, p2, p3, p4 := obj[..1], obj[..2], obj[..3], obj[..4];
    assert p1[..0] == [] && p2[..1] == p1 && p3[..2] == p2 && p4[..3] == p3 && obj[..4] == p4;
    assert EnvValues(p1) == map[EnvKey(obj[0].0) := obj[0].1];
    assert EnvValues(p2) == EnvValues(p1)[EnvKey(obj[1].0) := obj[1].1];
    assert EnvValues(p3) == EnvValues(p2)[EnvKey(obj[2].0) := obj[2].1];
    assert EnvValues(p4) == EnvValues(p3)[EnvKey(obj[3].0) := obj[3].1];
  }

  /** The translated options: exactly five keys, each with its option's value. */
  lemma SomeOptionsValues(config: seq<(string, Value)>)
    requires SomeOptions(config)
    ensures EnvValues(config)
      == map["ICON" := Str(IconUrl), "ALLOW_NETHER" := Bool(false), "MAX_BUILD_HEIGHT" := Num(1024),
             "SPAWN_ANIMALS" := Bool(false), "PVP" := Bool(true)]
  {
    SomeOptionsKeys(config);
    EnvValuesOfFive(config);
  }

  /**
   * The server's environment of the second creation test: the given options
   * win, every other default survives, and `EULA` is true.
   */
  lemma SomeOptionsEnvironment(defaults: seq<(string, Value)>, config: seq<(string, Value)>, k: string)
    requires SomeOptions(config)
    ensures var env := Environment(defaults, config);
      "ALLOW_NETHER" in env && env["ALLOW_NETHER"] == Bool(false)
      && "MAX_BUILD_HEIGHT" in env && env["MAX_BUILD_HEIGHT"] == Num(1024)
      && "SPAWN_ANIMALS" in env && env["SPAWN_ANIMALS"] == Bool(false)
      && "PVP" in env && env["PVP"] == Bool(true)
      && "ICON" in env && env["ICON"] == Str(IconUrl)
      && "EULA" in env && env["EULA"] == Bool(true)
    ensures k !in ["ICON", "ALLOW_NETHER", "MAX_BUILD_HEIGHT", "SPAWN_ANIMALS", "PVP", "EULA"]
      && k in EnvValues(defaults)
      ==> k in Environment(defaults, config) && Environment(defaults, config)[k] == EnvValues(defaults)[k]
  {
    SomeOptionsValues(config);
    EnvironmentMerge(defaults, config, "ALLOW_NETHER");
    EnvironmentMerge(defaults, config, "MAX_BUILD_HEIGHT");
    EnvironmentMerge(defaults, config, "SPAWN_ANIMALS");
    EnvironmentMerge(defaults, config, "PVP");
    EnvironmentMerge(defaults, config, "ICON");
    EnvironmentMerge(defaults, config, k);
  }
}
