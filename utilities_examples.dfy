/**
 * The expected values of the helpers' unit tests, as lemmas about the model.
 *
 * Each example is stated about a variable equal to the literal. The small
 * lemmas before it take the literal apart into words and evaluate one short
 * word at a time; the general lemmas of `Utilities` do the rest.
 */
module UtilitiesExamples {
  import opened Utilities

  lemma {:induction false} UpperByIndex(s: string, t: string)
    requires |s| == |t|
    requires forall i :: 0 <= i < |s| ==> ToUpperChar(s[i]) == t[i]
    ensures Upper(s) == t
  {
    if s != [] {
      UpperByIndex(s[1..], t[1..]);
      assert t == [t[0]] + t[1..];
    }
  }

  // ---------------------------------------------------------------------
  // Environment-variable names of configuration keys
  // ---------------------------------------------------------------------

  lemma WordsAllowNether()
    ensures "allowNether" == "allow" + "Nether"
    ensures PlainWord("allow") && CapitalWord("Nether")
  {}

  lemma UpperAllow()
    ensures Upper("allow") == "ALLOW"
  {
    UpperByIndex("allow", "ALLOW");
  }

  lemma UpperNether()
    ensures Upper("Nether") == "NETHER"
  {
    UpperByIndex("Nether", "NETHER");
  }

  lemma JoinAllowNether()
    ensures "ALLOW" + ("_" + "NETHER") == "ALLOW_NETHER"
  {}

  lemma EnvKeyAllowNether(key: string)
    requires key == "allowNether"
    ensures EnvKey(key) == "ALLOW_NETHER"
  {
    WordsAllowNether();
    EnvKeyTwoWords("allow", "Nether");
    UpperAllow();
    UpperNether();
    JoinAllowNether();
  }

  lemma WordsMaxBuildHeight()
    ensures "maxBuildHeight" == "max" + ("Build" + "Height")
    ensures PlainWord("max") && CapitalWord("Build") && CapitalWord("Height")
  {}

  lemma UpperMax()
    ensures Upper("max") == "MAX"
  {
    UpperByIndex("max", "MAX");
  }

  lemma UpperBuild()
    ensures Upper("Build") == "BUILD"
  {
    UpperByIndex("Build", "BUILD");
  }

  lemma UpperHeight()
    ensures Upper("Height") == "HEIGHT"
  {
    UpperByIndex("Height", "HEIGHT");
  }

  lemma JoinMaxBuildHeight()
    ensures "MAX" + ("_" + ("BUILD" + ("_" + "HEIGHT"))) == "MAX_BUILD_HEIGHT"
  {}

  lemma EnvKeyMaxBuildHeight(key: string)
    requires key == "maxBuildHeight"
    ensures EnvKey(key) == "MAX_BUILD_HEIGHT"
  {
    WordsMaxBuildHeight();
    EnvKeyThreeWords("max", "Build", "Height");
    UpperMax();
    UpperBuild();
    UpperHeight();
    JoinMaxBuildHeight();
  }

  lemma WordsSpawnAnimals()
    ensures "spawnAnimals" == "spawn" + "Animals"
    ensures PlainWord("spawn") && CapitalWord("Animals")
  {}

  lemma UpperSpawn()
    ensures Upper("spawn") == "SPAWN"
  {
    UpperByIndex("spawn", "SPAWN");
  }

  lemma UpperAnimals()
    ensures Upper("Animals") == "ANIMALS"
  {
    UpperByIndex("Animals", "ANIMALS");
  }

  lemma JoinSpawnAnimals()
    ensures "SPAWN" + ("_" + "ANIMALS") == "SPAWN_ANIMALS"
  {}

  lemma EnvKeySpawnAnimals(key: string)
    requires key == "spawnAnimals"
    ensures EnvKey(key) == "SPAWN_ANIMALS"
  {
    WordsSpawnAnimals();
    EnvKeyTwoWords("spawn", "Animals");
    UpperSpawn();
    UpperAnimals();
    JoinSpawnAnimals();
  }

  lemma UpperPvp()
    ensures forall j :: 0 <= j < |"pvp"| ==> !IsUpper("pvp"[j])
    ensures Upper("pvp") == "PVP"
  {
    UpperByIndex("pvp", "PVP");
  }

  lemma EnvKeyPvp(key: string)
    requires key == "pvp"
    ensures EnvKey(key) == "PVP"
  {
    UpperPvp();
    SnakeCaseWithoutUpper(key);
  }

  // ---------------------------------------------------------------------
  // Stack names
  // ---------------------------------------------------------------------

  lemma SafeHello()
    ensures IsSafeName("hello")
  {}

  lemma SafeWorld()
    ensures IsSafeName("world")
  {}

  lemma SafeToday()
    ensures IsSafeName("today")
  {}

  lemma SafeNice()
    ensures IsSafeName("nice")
  {}

  lemma Safe42Hello()
    ensures IsSafeName("42-hello")
  {}

  lemma SafeSomeThing()
    ensures IsSafeName("someThing")
  {}

  lemma StackNamesUnchanged()
    ensures CreateStackName("hello") == "hello"
    ensures CreateStackName("42-hello") == "42-hello"
    ensures CreateStackName("someThing") == "someThing"
  {
    SafeHello();
    Safe42Hello();
    SafeSomeThing();
    CreateStackNameKeepsSafe("hello");
    CreateStackNameKeepsSafe("42-hello");
    CreateStackNameKeepsSafe("someThing");
  }

  lemma PartsHelloWorld()
    ensures "hello world" == "hello" + (Spaces(1) + "world")
  {}

  lemma JoinHelloWorld()
    ensures "hello" + ("_" + "world") == "hello_world"
  {}

  lemma StackNameOneSpace(name: string)
    requires name == "hello world"
    ensures CreateStackName(name) == "hello_world"
  {
    SafeHello();
    SafeWorld();
    PartsHelloWorld();
    CreateStackNameSpaceRun("hello", 1, "world");
    CreateStackNameKeepsSafe("world");
    JoinHelloWorld();
  }

  lemma PartsSpaceRuns()
    ensures "hello  world       today"
      == "hello" + (Spaces(2) + ("world" + (Spaces(7) + "today")))
  {}

  lemma JoinSpaceRuns()
    ensures "hello" + ("_" + ("world" + ("_" + "today"))) == "hello_world_today"
  {}

  lemma StackNameSpaceRuns(name: string)
    requires name == "hello  world       today"
    ensures CreateStackName(name) == "hello_world_today"
  {
    SafeHello();
    SafeWorld();
    SafeToday();
    PartsSpaceRuns();
    var tail := "world" + (Spaces(7) + "today");
    SpacesAllowed(7);
    assert AllAllowed(tail);
    CreateStackNameSpaceRun("world", 7, "today");
    CreateStackNameSpaceRun("hello", 2, tail);
    CreateStackNameKeepsSafe("today");
    JoinSpaceRuns();
  }

  lemma PartsHelloHashWorld()
    ensures "hello#world" == "hello" + ("#" + "world")
    ensures !IsAllowed("#"[0])
  {}

  lemma JoinHelloHashWorld()
    ensures "hello" + "world" == "helloworld"
  {}

  lemma StackNameStripped(name: string)
    requires name == "hello#world"
    ensures CreateStackName(name) == "helloworld"
  {
    PartsHelloHashWorld();
    CreateStackNameDropsDisallowed("hello", "#", "world");
    SafeHello();
    SafeWorld();
    assert IsSafeName("hello" + "world");
    CreateStackNameKeepsSafe("hello" + "world");
    JoinHelloHashWorld();
  }

  lemma Symbols()
    ensures (forall i :: 0 <= i < |"`~!@#$%^&*()+=[]{}|;:'\",.<>/?"| ==>
               !IsAllowed("`~!@#$%^&*()+=[]{}|;:'\",.<>/?"[i]))
  {}

  lemma PartsNiceWorld()
    ensures "nice " + " world" == "nice" + (Spaces(2) + "world")
  {}

  lemma JoinNiceWorld()
    ensures "nice" + ("_" + "world") == "nice_world"
  {}

  /** The punctuation example, its input written as its three parts. */
  lemma StackNameSymbols(name: string)
    requires name == "nice " + ("`~!@#$%^&*()+=[]{}|;:'\",.<>/?" + " world")
    ensures CreateStackName(name) == "nice_world"
  {
    Symbols();
    CreateStackNameDropsDisallowed("nice ", "`~!@#$%^&*()+=[]{}|;:'\",.<>/?", " world");
    PartsNiceWorld();
    SafeNice();
    SafeWorld();
    CreateStackNameSpaceRun("nice", 2, "world");
    CreateStackNameKeepsSafe("world");
    JoinNiceWorld();
  }
}
