/**
 * ConfigManager of src/core/config.py: the default settings, the merge of a
 * loaded file with them, and `get`, `set`, `update` and `save` on the
 * settings dictionary.
 *
 * The file itself is not read here: its parsed contents arrive as a
 * `ConfigFile`, and `save` appends the dictionary it would write to a log.
 */
module Config {

  /** A JSON value as it can appear in the settings file. */
  datatype Value = Null | Bool(b: bool) | Int(i: int) | Str(s: string)

  /** Python truthiness: what `if value:` decides. */
  predicate Truthy(v: Value)
  {
    match v
    case Null => false
    case Bool(b) => b
    case Int(i) => i != 0
    case Str(s) => s != ""
  }

  type Dict = map<string, Value>

  /** The keys of `DEFAULT_CONFIG` in declaration order. */
  const DefaultKeys: seq<string> := ["enabled", "delay_minutes", "battery_percent", "sound_enabled", "language"]

  /** `DEFAULT_CONFIG`; a `language` of None means "detect from the system". */
  const DefaultConfig: Dict := map[
    "enabled" := Bool(false),
    "delay_minutes" := Int(5),
    "battery_percent" := Int(50),
    "sound_enabled" := Bool(true),
    "language" := Null]

  /** What `load` finds on disk: no file, a file that fails to open or parse, or a parsed JSON object. */
  datatype ConfigFile = Absent | Unreadable | Parsed(contents: Dict)

  /** `loaded` with every key of `defaults` it lacks added from `defaults`. */
  function WithDefaults(loaded: Dict, defaults: Dict): Dict
  {
    map k | k in loaded.Keys + defaults.Keys :: if k in loaded then loaded[k] else defaults[k]
  }

  /**
   * The loop of `load` that adds each missing default key to `loaded`, in
   * the order of `keys`.
   */
  method FillMissing(loaded: Dict, keys: seq<string>, defaults: Dict) returns (r: Dict)
    requires forall k :: k in defaults <==> k in keys
    ensures r == WithDefaults(loaded, defaults)
  {
    r := loaded;
    var n := 0;
    while n < |keys|
      invariant 0 <= n <= |keys|
      invariant r == WithDefaults(loaded, map k | k in defaults && k in keys[..n] :: defaults[k])
    {
      var key := keys[n];
      if key !in r {
        r := r[key := defaults[key]];
      }
      n := n + 1;
      assert keys[..n] == keys[..n - 1] + [key];
    }
    assert keys[..n] == keys;
    assert (map k | k in defaults && k in keys :: defaults[k]) == defaults;
  }

  /** The dictionary `load` returns for each kind of file. */
  function Loaded(file: ConfigFile): Dict
  {
    match file
    case Parsed(m) => WithDefaults(m, DefaultConfig)
    case _ => DefaultConfig
  }

  /** `ConfigManager.load`. */
  method Load(file: ConfigFile) returns (r: Dict)
    ensures r == Loaded(file)
  {
    match file {
      case Parsed(m) =>
        r := FillMissing(m, DefaultKeys, DefaultConfig);
      case _ =>
        r := DefaultConfig;
    }
  }

  /** `dict.get(key, default)`. */
  function Get(c: Dict, key: string, default: Value): Value
  {
    if key in c then c[key] else default
  }

  /** The settings object the application shares. */
  class ConfigManager {
    var config: Dict
    /** Every dictionary `save` has written, oldest first. */
    var saved: seq<Dict>

    constructor (file: ConfigFile)
      ensures config == Loaded(file) && saved == []
    {
      var loaded := Load(file);
      config := loaded;
      saved := [];
    }

    /** `get(key, default)`. */
    function GetOr(key: string, default: Value): Value
      reads this
    {
      Get(config, key, default)
    }

    /** `set(key, value)`. */
    method Set(key: string, value: Value)
      modifies this`config
      ensures config == old(config)[key := value]
    {
      config := config[key := value];
    }

    /** `update(updates)`: Python's `dict.update`, the right operand wins. */
    method Update(updates: Dict)
      modifies this`config
      ensures config == old(config) + updates
    {
      config := config + updates;
    }

    /** `save()`: writes the current dictionary. */
    method Save()
      modifies this`saved
      ensures saved == old(saved) + [config]
    {
      saved := saved + [config];
    }
  }

  // ---------------------------------------------------------------------------
  // Properties
  // ---------------------------------------------------------------------------

  /** After `load`, every default key is present. */
  lemma LoadedHasDefaultKeys(file: ConfigFile)
    ensures DefaultConfig.Keys <= Loaded(file).Keys
  {
  }

  /** `load` keeps every key of the file as it is, including keys the defaults do not know. */
  lemma LoadKeepsFileEntries(m: Dict)
    ensures forall k :: k in m ==> k in Loaded(Parsed(m)) && Loaded(Parsed(m))[k] == m[k]
    ensures Loaded(Parsed(m)).Keys == m.Keys + DefaultConfig.Keys
  {
  }

  /** A missing or unreadable file gives exactly the five defaults. */
  lemma LoadWithoutFile()
    ensures Loaded(Absent) == Loaded(Unreadable) == DefaultConfig
    ensures DefaultConfig.Keys == {"enabled", "delay_minutes", "battery_percent", "sound_enabled", "language"}
    ensures DefaultConfig["enabled"] == Bool(false) && DefaultConfig["delay_minutes"] == Int(5)
    ensures DefaultConfig["battery_percent"] == Int(50) && DefaultConfig["sound_enabled"] == Bool(true)
    ensures DefaultConfig["language"] == Null
  {
  }

  /** Saving and loading again gives back the same dictionary. */
  lemma LoadIdempotent(file: ConfigFile)
    ensures Loaded(Parsed(Loaded(file))) == Loaded(file)
  {
  }

  /** `get` returns the stored value when the key is present and the default otherwise. */
  lemma GetPresentOrDefault(c: Dict, key: string, d: Value)
    ensures key in c ==> Get(c, key, d) == c[key]
    ensures key !in c ==> Get(c, key, d) == d
  {
  }

  /** After `set(k, v)`, `get(k)` is `v` and every other key reads as before. */
  lemma GetAfterSet(c: Dict, k: string, v: Value, k2: string, d: Value)
    ensures Get(c[k := v], k, d) == v
    ensures k2 != k ==> Get(c[k := v], k2, d) == Get(c, k2, d)
  {
  }

  /** `update(u)` overwrites exactly the keys of `u` and leaves the others as they were. */
  lemma GetAfterUpdate(c: Dict, u: Dict, k: string, d: Value)
    ensures Get(c + u, k, d) == if k in u then u[k] else Get(c, k, d)
  {
  }
}
