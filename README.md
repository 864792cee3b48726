# Message purge plugin base: configuration and weight

This project models the state held by `MessagePurgeBase`, the abstract base
class of the message module's purge plugins. A purge plugin selects stale
messages and deletes them. The plugin manager orders plugins by their
**weight**. Each plugin also keeps a **configuration** map of settings, such as
a retention threshold in a concrete subclass.

The only logic of the class that does not call into the host framework is
how it stores these two fields:

- `setConfiguration` takes a PHP array. It first adds `data => []` and
  `weight => ''` where those keys are missing.
- It then stores `data + defaultConfiguration()`. This is PHP's left-biased
  array union: supplied keys win, and default keys fill in what is missing.
- It stores `weight` as given. Every other input key, such as `id`, is dropped.
- `getConfiguration` returns `[id => pluginId, weight => weight, data => configuration]`.
- `setWeight` and `getWeight` write and read the weight.
- The constructor runs `setConfiguration` on its configuration argument. The
  field's initial weight `0` is therefore always replaced.

Files:

- `php_array.dfy`, module `PhpArray`: a PHP value type whose arrays are
  string-keyed maps, and the array union operator.
- `message_purge_base.dfy`, module `MessagePurgeBase`:
  - the specification of the two setters on values (`ConfiguredState`,
    `ConfigurationArray`, `Step`, `Run`) and the lemmas about them;
  - the class `PurgePlugin`, whose fields are updated in place by
    `SetConfiguration` and `SetWeight`. Each method's `ensures` ties the new
    state to those functions;
  - two client scenarios proved from the class contracts alone.

The class invariant `Valid()` says that every key of the default
configuration is configured. The constructor and `SetConfiguration`
establish it, and `SetWeight` keeps it. Because of this invariant,
feeding `getConfiguration()` back into `setConfiguration` changes nothing.

A subclass overrides `defaultConfiguration()`. The model takes the defaults
as a constructor argument (`PurgePlugin.defaults`), so every property holds
for any defaults map. The base class's own defaults are the empty map
(`BaseDefaultConfiguration`).

## Model

| member | source | states |
|---|---|---|
| `PhpArray.Union` | src/MessagePurgeBase.php:178-182 | `+` on arrays keeps every left entry, adds right entries only for absent keys, and yields exactly the union of the key sets |
| `PhpArray.UnionAbsorbs` | src/MessagePurgeBase.php:182 | when the right operand adds no new key, the union is the left operand unchanged |
| `MessagePurgeBase.ConfiguredState` | src/MessagePurgeBase.php:177-185 | after `setConfiguration` the weight is the supplied one, or `''` (not `0`) when none is supplied; without `data` the configuration equals the defaults; with `data` its keys are those of data and defaults, data values win, defaults fill the gaps; every default key is present |
| `MessagePurgeBase.ConfigurationArray` | src/MessagePurgeBase.php:166-172 | `getConfiguration` yields exactly the keys `id`, `weight`, `data`, holding the plugin id, the weight and the stored configuration |
| `MessagePurgeBase.RoundTrip` | src/MessagePurgeBase.php:166-185 | when every default key is configured, `setConfiguration(getConfiguration())` accepts its input and leaves weight and configuration as they were |
| `MessagePurgeBase.OtherKeysIgnored` | src/MessagePurgeBase.php:177-184 | two inputs that agree on `data` and `weight` (presence and value) give the same state, whatever other keys such as `id` hold |
| `MessagePurgeBase.Step` | src/MessagePurgeBase.php:150-185 | one setter call: `setWeight` changes only the weight; `setConfiguration` gives `ConfiguredState` |
| `MessagePurgeBase.RunKeepsDefaults` | src/MessagePurgeBase.php:150-185 | from a state holding every default key, any sequence of `setWeight`/`setConfiguration` calls ends in such a state |
| `MessagePurgeBase.PurgePlugin.constructor` | src/MessagePurgeBase.php:65-72 | the new plugin's state is what `setConfiguration` gives for the constructor's configuration; the initial `0` weight is replaced; the invariant holds |
| `MessagePurgeBase.PurgePlugin.SetConfiguration` | src/MessagePurgeBase.php:177-185 | the new weight and configuration are `ConfiguredState(input, defaults)`, and the invariant holds |
| `MessagePurgeBase.PurgePlugin.SetWeight` | src/MessagePurgeBase.php:150-153 | only the weight changes, to the argument; configuration, id and the invariant are kept |
| `MessagePurgeBase.PurgePlugin.GetWeight` | src/MessagePurgeBase.php:158-160 | reads the current weight, so `SetWeight(w)` then `GetWeight()` gives `w`; changes nothing |
| `MessagePurgeBase.PurgePlugin.GetConfiguration` | src/MessagePurgeBase.php:166-172 | is `ConfigurationArray` of the id and current state; changes nothing |
| `MessagePurgeBase.PurgePlugin.DefaultConfiguration` | src/MessagePurgeBase.php:190-192 | returns the plugin's declared defaults; a base-class plugin declares the empty map |

## Left out

- `process` (deletion by ids): it only forwards the ids to the framework's entity storage (`loadMultiple`, then `delete`), whose behaviour is not visible here.
- `baseQuery`: three chained calls on a framework-owned query builder; what the condition and the sorts mean is defined by that builder.
- `create`: a dependency-injection container lookup.
- The `entityTypeManager`, `messageQuery` and `configFactory` fields: opaque framework handles that the constructor only stores.
- `buildConfigurationForm`, `validateConfigurationForm`, `submitConfigurationForm`: framework form-API hooks that do nothing.
- `label`, `description`: lookups into the plugin definition, which this class does not own. `calculateDependencies` returns a constant empty array.
- The fluent `return $this` of `setWeight` and `setConfiguration`: the methods return nothing.
- A non-array `data` entry, on which PHP's `+` raises an error: it is a precondition (`DataIsArray`), not modelled behaviour.
- PHP array details: integer keys and numeric-string key normalisation (keys are strings here), key order (maps are unordered, and nothing here depends on order), floats and objects as values.
- `PurgePlugin.DefaultConfiguration`: a subclass may compute its defaults afresh on every call; the model fixes them per instance.
