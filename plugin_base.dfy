/**
 * `PluginBase` (plugins/plugin_base.py): the part every plugin shares, its name and its
 * `enabled` flag. The integrations (`DiscordBot.Bot`, `VTubeStudio.Studio`, `PiperTts.Tts`)
 * each own one of these objects, and the registry holds them.
 */
module PluginBase {

  /** One configuration entry of a plugin's schema: the key and its declared type. */
  datatype SchemaEntry = SchemaEntry(key: string, kind: string)

  class Plugin {
    /** `get_name()` of the concrete plugin. */
    const name: string
    /** `self.enabled` */
    var enabled: bool

    /** A new plugin is enabled. */
    constructor (name: string)
      ensures this.name == name && enabled
    {
      this.name := name;
      enabled := true;
    }

    /** `is_enabled()` */
    function IsEnabled(): (b: bool)
      reads this
      ensures b <==> enabled
    {
      enabled
    }

    /** `set_enabled(enabled)`: the flag, and nothing else, takes the new value. */
    method SetEnabled(enabled: bool)
      modifies this
      ensures this.enabled == enabled
    {
      this.enabled := enabled;
    }

    /** The default `get_config_schema()`: no configuration keys. */
    function GetConfigSchema(): (schema: seq<SchemaEntry>)
      ensures |schema| == 0
    {
      []
    }

    /** The default `on_message_received` hook: its empty frame means it changes nothing. */
    method OnMessageReceived(message: string, messageType: string)
    {
    }

    /** The default `on_message_sent` hook. */
    method OnMessageSent(message: string, messageType: string)
    {
    }

    /** The default `on_memory_added` hook. */
    method OnMemoryAdded(memoryContent: string, memoryType: string)
    {
    }
  }
}
