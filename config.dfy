/** The application configuration (config/config_manager.py): dotted-key get and set, validation, defaults. */
module Config {
  import opened Text
  import opened Collections
  import opened Settings

  /** What reading the configuration file produced. */
  datatype LoadOutcome = Missing | Loaded(contents: Value) | Unreadable

  const RequiredSections: seq<string> := ["core", "ollama", "memory", "plugins"]

  /** `get_default_config` */
  const DefaultConfig: Value := Dict(map[
    "core" := Dict(map["name" := Str("AI Companion"), "version" := Str("1.0.0"), "debug" := Bool(true)]),
    "ollama" := Dict(map["model" := Str("llama2"), "base_url" := Str("http://localhost:11434"),
                         "temperature" := Real(0.7), "max_tokens" := Int(500)]),
    "memory" := Dict(map["type" := Str("basic"), "max_memories" := Int(1000),
                         "semantic_search_enabled" := Bool(false)]),
    "webui" := Dict(map["enabled" := Bool(false), "host" := Str("127.0.0.1"), "port" := Int(5000),
                        "debug" := Bool(false)]),
    "plugins" := Dict(map["enabled" := Bool(true), "plugins_path" := Str("./plugins/custom_plugins"),
                          "core_plugins" := List([Str("cli_interface")])]),
    "integrations" := Dict(map[
      "discord" := Dict(map["enabled" := Bool(false), "token" := Str(""), "channel_id" := Str("")]),
      "vtube_studio" := Dict(map["enabled" := Bool(false), "websocket_url" := Str("ws://localhost:8001")]),
      "piper_tts" := Dict(map["enabled" := Bool(false), "model_path" := Str(""),
                              "voice" := Str("en_US-lessac-medium")])]),
    "personality" := Dict(map["learning_enabled" := Bool(true), "adaptation_rate" := Real(0.1),
                              "emotional_context" := Bool(true)])
  ])

  /**
   * `validate_config`: every required section is a top-level key; a configuration that does not
   * support `in` raises (None).
   */
  function ValidateConfig(config: Value): (r: Option<bool>)
    ensures config.Dict? ==>
      (r == Some(true) <==> "core" in config.entries && "ollama" in config.entries
                            && "memory" in config.entries && "plugins" in config.entries)
    ensures config.Dict? ==> r.Some?
  {
    AllIn(RequiredSections, config)
  }

  /** The defaults validate, keep up to 1000 memories and leave semantic search off. */
  lemma DefaultConfigProperties()
    ensures ValidateConfig(DefaultConfig) == Some(true)
    ensures GetPath(DefaultConfig, ["memory", "max_memories"]) == Some(Int(1000))
    ensures GetPath(DefaultConfig, ["memory", "semantic_search_enabled"]) == Some(Bool(false))
    ensures GetPath(DefaultConfig, ["plugins", "enabled"]) == Some(Bool(true))
  {
    assert ["memory", "max_memories"][1..] == ["max_memories"];
    assert ["memory", "semantic_search_enabled"][1..] == ["semantic_search_enabled"];
    assert ["plugins", "enabled"][1..] == ["enabled"];
  }

  class ConfigManager {
    var config: Value

    /** Loads the file; a missing or unreadable file gives the defaults. */
    constructor (stored: LoadOutcome)
      ensures config == if stored.Loaded? then stored.contents else DefaultConfig
    {
      config := if stored.Loaded? then stored.contents else DefaultConfig;
    }

    /** `get`: the value at the dotted key, or `default`. */
    method Get(key: string, default: Value) returns (r: Value)
      ensures r == Resolve(config, key, default)
    {
      r := Lookup(config, key, default);
    }

    /**
     * `set`: stores `value` at the dotted key, creating empty dicts on the way, and reports
     * success; when an existing value on the way is not a dict, Python raises and nothing
     * changes (false here).
     */
    method Set(key: string, value: Value) returns (ok: bool)
      modifies this
      ensures ok <==> Settable(old(config), SplitOn(key, "."))
      ensures ok ==> GetPath(config, SplitOn(key, ".")) == Some(value)
      ensures config == SetOrKeep(old(config), SplitOn(key, "."), value)
    {
      var keys := SplitOn(key, ".");
      SetPathSucceeds(config, keys, value);
      match SetPath(config, keys, value)
      case None =>
        ok := false;
      case Some(updated) =>
        GetAfterSet(config, keys, value);
        config := updated;
        ok := true;
    }

    /** `validate_config` on the current configuration. */
    function IsValid(): Option<bool>
      reads this
    {
      ValidateConfig(config)
    }
  }
}
