/**
 * The settings of conf/config.js, derived once from the process environment:
 * the defaults, and the Redis channel lists that name other environment
 * variables.
 */
module Config {
  import opened Results
  import opened JsText

  /** The process environment. */
  type Env = map<string, string>

  /** `pe[name]` is truthy: set, and not to the empty text. */
  predicate Truthy(env: Env, name: string)
  {
    name in env && env[name] != ""
  }

  /** `pe[name] || fallback`. */
  function OrDefault(env: Env, name: string, fallback: string): (r: string)
    ensures Truthy(env, name) ==> r == env[name]
    ensures !Truthy(env, name) ==> r == fallback
  {
    if Truthy(env, name) then env[name] else fallback
  }

  /** `pe[name]`, which is `undefined` for an unset variable. */
  function Raw(env: Env, name: string): Option<string>
  {
    if name in env then Some(env[name]) else None
  }

  /** `port`: the `PORT` text when set, else the number 3000. */
  datatype Port = PortText(text: string) | PortNumber(number: nat)

  const DefaultPort: nat := 3000

  datatype Settings = Settings(
    apiUrl: Option<string>,
    apiToken: Option<string>,
    ipWhitelistService: string,
    port: Port,
    pubSubBots: seq<string>,
    pubSubPerspectives: seq<string>,
    secret: Option<string>,
    perspectiveChannel: string,
    botChannel: string)

  /** The list variable split on `,` with each name trimmed. */
  function ListedNames(list: string): (names: seq<string>)
    ensures |names| == |Split(list, ',')|
    ensures forall i :: 0 <= i < |names| ==> names[i] == Trim(Split(list, ',')[i])
  {
    var parts := Split(list, ',');
    seq(|parts|, i requires 0 <= i < |parts| => Trim(parts[i]))
  }

  /** Keep the names whose variable is truthy, and take their values. */
  function Resolve(env: Env, names: seq<string>): (values: seq<string>)
    ensures |values| <= |names|
    ensures forall k :: 0 <= k < |values| ==> values[k] != ""
  {
    if names == [] then []
    else if Truthy(env, names[0]) then [env[names[0]]] + Resolve(env, names[1..])
    else Resolve(env, names[1..])
  }

  /** A value comes out exactly when some listed name is set to it; names
      whose variable is unset are dropped. */
  lemma {:induction false} ResolveMembers(env: Env, names: seq<string>, v: string)
    ensures v in Resolve(env, names) <==> exists name :: name in names && Truthy(env, name) && env[name] == v
    decreases |names|
  {
    if names != [] {
      ResolveMembers(env, names[1..], v);
      assert names == [names[0]] + names[1..];
      assert forall name :: name in names <==> name == names[0] || name in names[1..];
    }
  }

  /** Resolving keeps the order of the names: it distributes over concatenation. */
  lemma {:induction false} ResolveConcat(env: Env, a: seq<string>, b: seq<string>)
    ensures Resolve(env, a + b) == Resolve(env, a) + Resolve(env, b)
    decreases |a|
  {
    if a == [] {
      assert a + b == b;
    } else {
      assert (a + b)[0] == a[0];
      assert (a + b)[1..] == a[1..] + b;
      ResolveConcat(env, a[1..], b);
    }
  }

  /** When every name is set, each is replaced by its value, in order. */
  lemma {:induction false} ResolveAllSet(env: Env, names: seq<string>)
    requires forall i :: 0 <= i < |names| ==> Truthy(env, names[i])
    ensures |Resolve(env, names)| == |names|
    ensures forall i :: 0 <= i < |names| ==> names[i] in env && Resolve(env, names)[i] == env[names[i]]
    decreases |names|
  {
    if names != [] {
      ResolveAllSet(env, names[1..]);
    }
  }

  /** `pubSubPerspectives`: the values of the listed variables that are set. */
  function PubSubPerspectives(env: Env): seq<string>
  {
    Resolve(env, ListedNames(OrDefault(env, "REDIS_PUBSUB_PERSPECTIVES", "")))
  }

  /**
   * `pubSubBots`: the value of the one variable `REDIS_PUBSUB_BOTS` names,
   * as a one-element list when both are set, else the empty list. The name
   * is neither split nor trimmed.
   */
  function PubSubBots(env: Env): (bots: seq<string>)
    ensures |bots| <= 1
    ensures bots != [] <==> Truthy(env, "REDIS_PUBSUB_BOTS") && Truthy(env, env["REDIS_PUBSUB_BOTS"])
    ensures bots != [] ==> bots[0] == env[env["REDIS_PUBSUB_BOTS"]]
  {
    var name := OrDefault(env, "REDIS_PUBSUB_BOTS", "");
    if name != "" && Truthy(env, name) then [env[name]] else []
  }

  /** The settings as conf/config.js exports them. */
  function Load(env: Env): (s: Settings)
    ensures s.ipWhitelistService == "" <==> !Truthy(env, "IP_WHITELIST_SERVICE")
    ensures !Truthy(env, "PORT") ==> s.port == PortNumber(DefaultPort)
    ensures Truthy(env, "PORT") ==> s.port == PortText(env["PORT"])
    ensures s.perspectiveChannel == "focus" && s.botChannel == "imc"
    ensures s.pubSubPerspectives == PubSubPerspectives(env) && s.pubSubBots == PubSubBots(env)
    ensures s.apiUrl.Some? <==> "REFOCUS_API_URL" in env
  {
    Settings(
      Raw(env, "REFOCUS_API_URL"),
      Raw(env, "REFOCUS_API_TOKEN"),
      OrDefault(env, "IP_WHITELIST_SERVICE", ""),
      if Truthy(env, "PORT") then PortText(env["PORT"]) else PortNumber(DefaultPort),
      PubSubBots(env),
      PubSubPerspectives(env),
      Raw(env, "SECRET"),
      "focus",
      "imc")
  }

  /** An unset or empty list variable gives no perspective channels (no
      variable of an environment has the empty name). */
  lemma NoListNoChannels(env: Env)
    requires !Truthy(env, "REDIS_PUBSUB_PERSPECTIVES") && "" !in env
    ensures PubSubPerspectives(env) == []
  {
    assert Split("", ',') == [""];
    assert ListedNames("") == [""];
  }

  /** A channel comes from a listed name whose variable is set; a listed name
      whose variable is unset contributes nothing. */
  lemma PerspectiveChannelsFromListedNames(env: Env, v: string)
    ensures v in PubSubPerspectives(env) <==>
      exists name :: name in ListedNames(OrDefault(env, "REDIS_PUBSUB_PERSPECTIVES", "")) && Truthy(env, name) && env[name] == v
  {
    ResolveMembers(env, ListedNames(OrDefault(env, "REDIS_PUBSUB_PERSPECTIVES", "")), v);
  }

  /** No white space at either end of the text. */
  predicate Unpadded(t: string)
  {
    |t| == 0 || (!IsJsSpace(t[0]) && !IsJsSpace(t[|t| - 1]))
  }

  /** A text with no white space at either end is its own trim. */
  lemma TrimUnspaced(t: string)
    requires Unpadded(t)
    ensures Trim(t) == t
  {
  }

  /** Leading white space is trimmed away. */
  lemma TrimLeadingSpace(c: char, t: string)
    requires IsJsSpace(c)
    ensures Trim([c] + t) == Trim(t)
  {
    assert ([c] + t)[1..] == t;
  }

  /** A list of two names written `a, b` names `a` and `b`. */
  lemma {:induction false} TwoNamesListed(a: string, b: string)
    requires ',' !in a && ',' !in b && Unpadded(a) && Unpadded(b)
    ensures ListedNames(a + ", " + b) == [a, b]
  {
    var rest := [' '] + b;
    assert a + ", " + b == a + [','] + rest;
    assert ',' !in rest;
    SplitWithoutSeparator(rest, ',');
    SplitAtFirstSeparator(a, rest, ',');
    assert Split(a + ", " + b, ',') == [a, rest];
    TrimLeadingSpace(' ', b);
    TrimUnspaced(a);
    TrimUnspaced(b);
    var names := ListedNames(a + ", " + b);
    assert |names| == 2 && names[0] == Trim(a) && names[1] == Trim(rest);
  }

  /**
   * The list oracles, for any two names written `a, b`: with only `a` set one
   * channel comes out, and with both set both do, in list order.
   */
  lemma TwoListedOneSet(env: Env, a: string, b: string)
    requires ',' !in a && ',' !in b && Unpadded(a) && Unpadded(b)
    requires "REDIS_PUBSUB_PERSPECTIVES" in env && env["REDIS_PUBSUB_PERSPECTIVES"] == a + ", " + b
    requires Truthy(env, a) && !Truthy(env, b)
    ensures PubSubPerspectives(env) == [env[a]]
  {
    TwoNamesListed(a, b);
    assert OrDefault(env, "REDIS_PUBSUB_PERSPECTIVES", "") == a + ", " + b;
    assert [a, b][1..] == [b];
    assert Resolve(env, [b]) == [];
  }

  lemma TwoListedBothSet(env: Env, a: string, b: string)
    requires ',' !in a && ',' !in b && Unpadded(a) && Unpadded(b)
    requires "REDIS_PUBSUB_PERSPECTIVES" in env && env["REDIS_PUBSUB_PERSPECTIVES"] == a + ", " + b
    requires Truthy(env, a) && Truthy(env, b)
    ensures PubSubPerspectives(env) == [env[a], env[b]]
  {
    TwoNamesListed(a, b);
    assert OrDefault(env, "REDIS_PUBSUB_PERSPECTIVES", "") == a + ", " + b;
    ResolveAllSet(env, [a, b]);
  }

  /** The bots oracles: one named variable is read; a list is not split. */
  lemma BotsOracles()
    ensures PubSubBots(map["REDIS_PUBSUB_BOTS" := "SOMETHING, THING2", "SOMETHING" := "abcdefg",
      "THING2" := "hijklmnop"]) == []
    ensures PubSubBots(map["REDIS_PUBSUB_BOTS" := "SOMETHING", "SOMETHING" := "abcdefg"]) == ["abcdefg"]
  {
    var env: Env := map["REDIS_PUBSUB_BOTS" := "SOMETHING, THING2", "SOMETHING" := "abcdefg",
      "THING2" := "hijklmnop"];
    assert "SOMETHING, THING2" != "SOMETHING" && "SOMETHING, THING2" != "THING2";
    assert "SOMETHING, THING2" !in env;
  }
}
