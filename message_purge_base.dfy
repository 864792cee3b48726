/**
 * The configuration and weight holder of the abstract base class for
 * message purge plugins (src/MessagePurgeBase.php).
 *
 * A plugin instance keeps a weight, used by the plugin manager to order
 * purge strategies, and a configuration map of plugin settings. The map is
 * always the supplied `data` entry of the last `setConfiguration` input,
 * completed from the plugin's declared default configuration.
 */
module MessagePurgeBase {
  import opened PhpArray

  /** The weight a plugin object holds before its constructor runs. */
  const InitialWeight: Value := Int(0)

  /** The entries `setConfiguration` adds to an input that lacks them. */
  const InputDefaults: map<string, Value> := map["data" := Arr(map[]), "weight" := Str("")]

  /** The default configuration declared by the base class itself; subclasses declare their own. */
  const BaseDefaultConfiguration: map<string, Value> := map[]

  /**
   * What `setConfiguration` demands of its input: a `data` entry, when
   * there is one, is an array (PHP refuses `+` on any other operand).
   */
  predicate DataIsArray(configuration: map<string, Value>)
  {
    "data" in configuration ==> configuration["data"].Arr?
  }

  /** The two fields of a plugin instance that its setters change. */
  datatype PluginState = PluginState(weight: Value, configuration: map<string, Value>)

  /** The class invariant: every key of the default configuration is configured. */
  predicate HasDefaults(s: PluginState, defaults: map<string, Value>)
  {
    defaults.Keys <= s.configuration.Keys
  }

  /**
   * The state `setConfiguration(configuration)` leaves behind, for a plugin
   * whose `defaultConfiguration()` is `defaults`. The state before the call
   * plays no part.
   */
  function ConfiguredState(configuration: map<string, Value>, defaults: map<string, Value>): (s: PluginState)
    requires DataIsArray(configuration)
    // the weight is the supplied one, and the empty string when none is supplied
    ensures "weight" in configuration ==> s.weight == configuration["weight"]
    ensures "weight" !in configuration ==> s.weight == Str("")
    // without data, the configuration is exactly the defaults
    ensures "data" !in configuration ==> s.configuration == defaults
    // with data, supplied entries win and defaults fill in the missing keys
    ensures "data" in configuration ==>
      var data := configuration["data"].entries;
      && s.configuration.Keys == data.Keys + defaults.Keys
      && (forall k :: k in data ==> s.configuration[k] == data[k])
      && (forall k :: k in defaults && k !in data ==> s.configuration[k] == defaults[k])
    ensures HasDefaults(s, defaults)
  {
    var completed := Union(configuration, InputDefaults);
    PluginState(completed["weight"], Union(completed["data"].entries, defaults))
  }

  /** The array `getConfiguration()` returns for a plugin with the given id and state. */
  function ConfigurationArray(pluginId: string, s: PluginState): (r: map<string, Value>)
    ensures r.Keys == {"id", "weight", "data"}
    ensures r["id"] == Str(pluginId) && r["weight"] == s.weight && r["data"] == Arr(s.configuration)
  {
    map["id" := Str(pluginId), "weight" := s.weight, "data" := Arr(s.configuration)]
  }

  /**
   * Feeding `getConfiguration()` back into `setConfiguration` changes
   * nothing, provided the invariant holds; without the invariant the
   * defaults would add keys.
   */
  lemma RoundTrip(pluginId: string, s: PluginState, defaults: map<string, Value>)
    requires HasDefaults(s, defaults)
    ensures DataIsArray(ConfigurationArray(pluginId, s))
    ensures ConfiguredState(ConfigurationArray(pluginId, s), defaults) == s
  {
    UnionAbsorbs(s.configuration, defaults);
  }

  /**
   * Only the `data` and `weight` entries of the input matter: two inputs
   * that agree on those two keys (an `id` entry, say, may differ) configure
   * the same state.
   */
  lemma OtherKeysIgnored(c1: map<string, Value>, c2: map<string, Value>, defaults: map<string, Value>)
    requires DataIsArray(c1)
    requires ("data" in c1) == ("data" in c2) && ("weight" in c1) == ("weight" in c2)
    requires "data" in c1 ==> c1["data"] == c2["data"]
    requires "weight" in c1 ==> c1["weight"] == c2["weight"]
    ensures DataIsArray(c2)
    ensures ConfiguredState(c1, defaults) == ConfiguredState(c2, defaults)
  {
  }

  /** A call to one of the two setters of a plugin. */
  datatype Call =
    | SetConfigurationCall(configuration: map<string, Value>)
    | SetWeightCall(weight: Value)

  predicate Admissible(call: Call)
  {
    call.SetConfigurationCall? ==> DataIsArray(call.configuration)
  }

  /** The state one setter call leaves behind. */
  function Step(s: PluginState, call: Call, defaults: map<string, Value>): (t: PluginState)
    requires Admissible(call)
    ensures call.SetWeightCall? ==> t == s.(weight := call.weight)
  {
    match call
    case SetConfigurationCall(configuration) => ConfiguredState(configuration, defaults)
    case SetWeightCall(weight) => s.(weight := weight)
  }

  /** The state a sequence of setter calls leaves behind, first call first. */
  function Run(s: PluginState, calls: seq<Call>, defaults: map<string, Value>): PluginState
    requires forall i :: 0 <= i < |calls| ==> Admissible(calls[i])
    decreases |calls|
  {
    if calls == [] then s else Run(Step(s, calls[0], defaults), calls[1..], defaults)
  }

  /** After construction and any sequence of setter calls, the invariant still holds. */
  lemma {:induction false} RunKeepsDefaults(s: PluginState, calls: seq<Call>, defaults: map<string, Value>)
    requires forall i :: 0 <= i < |calls| ==> Admissible(calls[i])
    requires HasDefaults(s, defaults)
    ensures HasDefaults(Run(s, calls, defaults), defaults)
    decreases |calls|
  {
    if calls != [] {
      RunKeepsDefaults(Step(s, calls[0], defaults), calls[1..], defaults);
    }
  }

  /** A message purge plugin instance: its id, its declared defaults, its weight and its configuration. */
  class PurgePlugin {
    const pluginId: string
    /** What this plugin's `defaultConfiguration()` returns; the base class declares `BaseDefaultConfiguration`. */
    const defaults: map<string, Value>
    var weight: Value
    var configuration: map<string, Value>

    function State(): PluginState
      reads this
    {
      PluginState(weight, configuration)
    }

    ghost predicate Valid()
      reads this
    {
      HasDefaults(State(), defaults)
    }

    /**
     * The parent constructor stores the raw configuration and the weight
     * starts at 0; `setConfiguration` then replaces both.
     */
    constructor (configuration: map<string, Value>, pluginId: string, defaults: map<string, Value>)
      requires DataIsArray(configuration)
      ensures Valid()
      ensures this.pluginId == pluginId && this.defaults == defaults
      ensures State() == ConfiguredState(configuration, defaults)
    {
      this.pluginId := pluginId;
      this.defaults := defaults;
      this.configuration := configuration;
      this.weight := InitialWeight;
      new;
      SetConfiguration(configuration);
    }

    function DefaultConfiguration(): (d: map<string, Value>)
      reads this
      ensures d == defaults
    {
      defaults
    }

    method SetWeight(weight: Value)
      modifies this`weight
      ensures State() == old(State()).(weight := weight)
      ensures Valid() == old(Valid())
    {
      this.weight := weight;
    }

    function GetWeight(): (w: Value)
      reads this
      ensures w == State().weight
    {
      weight
    }

    function GetConfiguration(): (r: map<string, Value>)
      reads this
      ensures r == ConfigurationArray(pluginId, State())
    {
      map["id" := Str(pluginId), "weight" := GetWeight(), "data" := Arr(configuration)]
    }

    /**
     * Completes the input with an empty `data` array and an empty-string
     * weight, then stores the supplied data completed from the defaults,
     * and the weight.
     */
    method SetConfiguration(configuration: map<string, Value>)
      requires DataIsArray(configuration)
      modifies this
      ensures State() == ConfiguredState(configuration, defaults)
      ensures Valid()
    {
      var completed := Union(configuration, InputDefaults);
      this.configuration := Union(completed["data"].entries, DefaultConfiguration());
      this.weight := completed["weight"];
    }
  }

  /** A base-class plugin configured with an empty array: empty weight, empty settings; then a weight change and a round trip. */
  method EmptyConfigurationScenario(w: Value)
  {
    var p := new PurgePlugin(map[], "age", BaseDefaultConfiguration);
    assert p.GetWeight() == Str("") && p.configuration == map[];

    p.SetWeight(w);
    assert p.GetWeight() == w && p.configuration == map[];

    var c := p.GetConfiguration();
    RoundTrip(p.pluginId, p.State(), p.defaults);
    p.SetConfiguration(c);
    assert p.GetWeight() == w && p.configuration == map[];
  }

  /** A plugin whose defaults are partly overridden by the supplied data; the `id` entry is ignored. */
  method OverrideScenario()
  {
    var data := map["quota" := Int(5)];
    var input := map["id" := Str("quota"), "data" := Arr(data)];
    var defaults := map["quota" := Int(1000), "period" := Int(0)];
    assert "weight" !in input && input["data"].entries == data;
    var q := new PurgePlugin(input, "quota", defaults);
    assert q.GetWeight() == Str("");
    assert q.configuration.Keys == {"quota", "period"};
    assert q.configuration == map["quota" := Int(5), "period" := Int(0)];
  }
}
