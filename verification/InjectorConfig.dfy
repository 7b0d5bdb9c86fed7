/** The process-wide configuration of pkg/config/config.go and the routine of pkg/watcher/cm_watcher.go
    that fills it from one watched ConfigMap. */
module InjectorConfig {
  import opened Prelude

  const INJECTOR_YAML := "injector.yaml"

  datatype AgentConfig = AgentConfig(image: string, version: string, envs: StringMap)
  datatype InjectorRule = InjectorRule(matchLabels: StringMap, envs: StringMap, labels: StringMap)

  /** The two ConfigMap names taken from the environment, and YAML parsing as unknown partial functions. */
  datatype Env = Env(defaultName: string, ruleName: string,
                     parseAgent: string -> Option<AgentConfig>, parseRule: string -> Option<InjectorRule>)

  /** DefaultInjectorConfigMap, DefaultInjectorConfig, InjectorRules and InjectorConfigMaps. */
  datatype Caches = Caches(defaultMap: StringMap, defaultConfig: Option<AgentConfig>,
                           rules: map<string, InjectorRule>, maps: map<string, StringMap>)

  /** A ConfigMap's data field; a nil map differs from an empty one. */
  type Data = Option<StringMap>

  // ----- specification of one call -----

  predicate AgentParses(env: Env, data: StringMap) {
    INJECTOR_YAML in data ==> env.parseAgent(data[INJECTOR_YAML]).Some?
  }

  predicate RulesParse(env: Env, data: StringMap) {
    forall k :: k in data ==> env.parseRule(data[k]).Some?
  }

  function ParsedRules(env: Env, data: StringMap): map<string, InjectorRule>
    requires RulesParse(env, data)
  {
    map k | k in data :: env.parseRule(data[k]).value
  }

  /** The caches after caching one ConfigMap, and whether the call succeeds. A default ConfigMap whose
      injector.yaml does not parse has already replaced the default data when the call fails. */
  function Cached(env: Env, c: Caches, name: string, data: Data): (Caches, bool) {
    if data.None? then (c, false)
    else if name == env.defaultName then
      if !AgentParses(env, data.value) then (c.(defaultMap := data.value), false)
      else if INJECTOR_YAML in data.value then
        (c.(defaultMap := data.value - {INJECTOR_YAML}, defaultConfig := env.parseAgent(data.value[INJECTOR_YAML])), true)
      else (c.(defaultMap := data.value), true)
    else if name == env.ruleName then
      if RulesParse(env, data.value) then (c.(rules := ParsedRules(env, data.value)), true) else (c, false)
    else (c.(maps := c.maps[name := data.value]), true)
  }

  // ----- the routine itself -----

  class InjectorConfigStore {
    var defaultInjectorConfigMap: StringMap
    var defaultInjectorConfig: Option<AgentConfig>
    var injectorRules: map<string, InjectorRule>
    var injectorConfigMaps: map<string, StringMap>

    ghost function Contents(): Caches
      reads this
    {
      Caches(defaultInjectorConfigMap, defaultInjectorConfig, injectorRules, injectorConfigMaps)
    }

    constructor ()
      ensures Contents() == Caches(map[], None, map[], map[])
    {
      defaultInjectorConfigMap, defaultInjectorConfig := map[], None;
      injectorRules, injectorConfigMaps := map[], map[];
    }

    method CacheConfigMap(env: Env, name: string, data: Data) returns (ok: bool)
      modifies this
      ensures (Contents(), ok) == Cached(env, old(Contents()), name, data)
    {
      if data.None? {
        return false;
      }
      if name == env.defaultName {
        CopyDefault(data.value);
        if INJECTOR_YAML in data.value {
          var parsed := env.parseAgent(data.value[INJECTOR_YAML]);
          if parsed.None? {
            return false;
          }
          defaultInjectorConfig := parsed;
          defaultInjectorConfigMap := defaultInjectorConfigMap - {INJECTOR_YAML};
        }
      } else if name == env.ruleName {
        var rules: map<string, InjectorRule>;
        ok, rules := ParseAllRules(env, data.value);
        if !ok {
          return;
        }
        injectorRules := rules;
      } else {
        injectorConfigMaps := injectorConfigMaps[name := data.value];
      }
      return true;
    }

    method CopyDefault(data: StringMap)
      modifies this`defaultInjectorConfigMap
      ensures defaultInjectorConfigMap == data
    {
      defaultInjectorConfigMap := map[];
      var todo := data.Keys;
      while todo != {}
        invariant todo <= data.Keys
        invariant defaultInjectorConfigMap == map k | k in data.Keys - todo :: data[k]
        decreases |todo|
      {
        var k :| k in todo;
        defaultInjectorConfigMap := defaultInjectorConfigMap[k := data[k]];
        todo := todo - {k};
      }
    }
  }

  /** Walks the data in any order and gives up at the first rule that does not parse. */
  method ParseAllRules(env: Env, data: StringMap) returns (ok: bool, rules: map<string, InjectorRule>)
    ensures ok <==> RulesParse(env, data)
    ensures ok ==> rules == ParsedRules(env, data)
  {
    rules := map[];
    var todo := data.Keys;
    while todo != {}
      invariant todo <= data.Keys
      invariant forall k :: k in data.Keys - todo ==> env.parseRule(data[k]).Some?
      invariant rules.Keys == data.Keys - todo
      invariant forall k :: k in rules ==> rules[k] == env.parseRule(data[k]).value
      decreases |todo|
    {
      var k :| k in todo;
      var rule := env.parseRule(data[k]);
      if rule.None? {
        return false, rules;
      }
      rules := rules[k := rule.value];
      todo := todo - {k};
    }
    ok := true;
  }

  // ----- any number of calls -----

  datatype Call = Call(name: string, data: Data)

  function RunCalls(env: Env, c: Caches, calls: seq<Call>): Caches {
    if calls == [] then c
    else
      var last := calls[|calls| - 1];
      Cached(env, RunCalls(env, c, calls[..|calls| - 1]), last.name, last.data).0
  }

  predicate WritesDefault(env: Env, call: Call) {
    call.name == env.defaultName && call.data.Some?
  }

  predicate WritesAgent(env: Env, call: Call) {
    WritesDefault(env, call) && INJECTOR_YAML in call.data.value && AgentParses(env, call.data.value)
  }

  predicate WritesRules(env: Env, call: Call) {
    call.name == env.ruleName && call.data.Some? && RulesParse(env, call.data.value)
  }

  predicate WritesMap(call: Call, name: string) {
    call.name == name && call.data.Some?
  }

  /** The latest call that satisfies p. */
  function Latest(calls: seq<Call>, p: Call -> bool): (r: Option<Call>)
    ensures r.Some? ==> p(r.value)
  {
    if calls == [] then None
    else if p(calls[|calls| - 1]) then Some(calls[|calls| - 1])
    else Latest(calls[..|calls| - 1], p)
  }

  lemma {:induction false} LatestIsTheLast(calls: seq<Call>, p: Call -> bool)
    ensures match Latest(calls, p)
      case None => forall i :: 0 <= i < |calls| ==> !p(calls[i])
      case Some(call) => p(call) && exists i ::
        0 <= i < |calls| && calls[i] == call && forall j :: i < j < |calls| ==> !p(calls[j])
  {
    if calls != [] {
      var n := |calls| - 1;
      LatestIsTheLast(calls[..n], p);
      if !p(calls[n]) && Latest(calls, p).Some? {
        var i :| 0 <= i < n && calls[..n][i] == Latest(calls, p).value && forall j :: i < j < n ==> !p(calls[..n][j]);
        assert calls[i] == calls[..n][i] && forall j :: i < j < n ==> calls[j] == calls[..n][j];
      }
    }
  }

  /** A rule set is replaced as a whole or not at all: the rules are those of the latest call that parsed. */
  lemma {:induction false} RulesAreTheLatestThatParsed(env: Env, c: Caches, calls: seq<Call>)
    requires env.defaultName != env.ruleName
    ensures var r := RunCalls(env, c, calls);
      match Latest(calls, call => WritesRules(env, call))
      case None => r.rules == c.rules
      case Some(call) => r.rules == ParsedRules(env, call.data.value)
  {
    if calls != [] {
      RulesAreTheLatestThatParsed(env, c, calls[..|calls| - 1]);
    }
  }

  /** Every other ConfigMap is cached under its own name with its latest non-nil data. */
  lemma {:induction false} MapsHoldTheirLatestData(env: Env, c: Caches, calls: seq<Call>, name: string)
    requires name != env.defaultName && name != env.ruleName
    ensures var r := RunCalls(env, c, calls);
      match Latest(calls, call => WritesMap(call, name))
      case None => (name in r.maps <==> name in c.maps) && (name in c.maps ==> r.maps[name] == c.maps[name])
      case Some(call) => name in r.maps && r.maps[name] == call.data.value
  {
    if calls != [] {
      MapsHoldTheirLatestData(env, c, calls[..|calls| - 1], name);
    }
  }

  /** The default data is in step with the latest default call, except that the raw injector.yaml stays in
      it exactly when that call failed to parse it. */
  lemma {:induction false} DefaultsFollowTheLatestCall(env: Env, c: Caches, calls: seq<Call>)
    ensures var r := RunCalls(env, c, calls);
      match Latest(calls, call => WritesDefault(env, call))
      case None => r.defaultMap == c.defaultMap
      case Some(call) =>
        && r.defaultMap - {INJECTOR_YAML} == call.data.value - {INJECTOR_YAML}
        && (INJECTOR_YAML in r.defaultMap <==> !AgentParses(env, call.data.value))
  {
    if calls != [] {
      DefaultsFollowTheLatestCall(env, c, calls[..|calls| - 1]);
    }
  }

  /** The agent configuration is the latest one that parsed, whatever failed since. */
  lemma {:induction false} AgentIsTheLatestThatParsed(env: Env, c: Caches, calls: seq<Call>)
    ensures var r := RunCalls(env, c, calls);
      match Latest(calls, call => WritesAgent(env, call))
      case None => r.defaultConfig == c.defaultConfig
      case Some(call) => r.defaultConfig == env.parseAgent(call.data.value[INJECTOR_YAML])
  {
    if calls != [] {
      AgentIsTheLatestThatParsed(env, c, calls[..|calls| - 1]);
    }
  }
}
