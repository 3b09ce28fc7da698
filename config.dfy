/**
 * The per-guild settings store (`get_config` / `set_config`, main.py:47-54):
 * guild id string -> setting name -> value. The values the bot stores are
 * channel and role ids.
 */
module GuildConfig {
  import opened Wrappers

  type ConfigValue = int

  type Configs = map<string, map<string, ConfigValue>>

  /** `server_configs.get(guild, {}).get(key, None)`. */
  function GetConfig(c: Configs, guild: string, key: string): Option<ConfigValue> {
    var settings := if guild in c then c[guild] else map[];
    if key in settings then Some(settings[key]) else None
  }

  /** The store after `set_config(guild, key, value)`: the guild's map is created if missing. */
  function SetConfig(c: Configs, guild: string, key: string, value: ConfigValue): (c': Configs)
    ensures c'.Keys == c.Keys + {guild}
  {
    var settings := if guild in c then c[guild] else map[];
    c[guild := settings[key := value]]
  }

  /** A value just set reads back. */
  lemma GetAfterSet(c: Configs, guild: string, key: string, value: ConfigValue)
    ensures GetConfig(SetConfig(c, guild, key, value), guild, key) == Some(value)
  {
  }

  /** Setting one (guild, key) pair leaves every other pair as it was. */
  lemma SetLeavesOthers(c: Configs, guild: string, key: string, value: ConfigValue, g: string, k: string)
    requires g != guild || k != key
    ensures GetConfig(SetConfig(c, guild, key, value), g, k) == GetConfig(c, g, k)
  {
  }

  /** A pair never set reads as `None`, whether the guild is missing or only the key. */
  lemma GetUnset(c: Configs, guild: string, key: string)
    requires guild !in c || key !in c[guild]
    ensures GetConfig(c, guild, key) == None
  {
  }

  /** Setting the value a pair already has changes nothing in what can be read. */
  lemma SetIdempotent(c: Configs, guild: string, key: string, value: ConfigValue, g: string, k: string)
    ensures GetConfig(SetConfig(SetConfig(c, guild, key, value), guild, key, value), g, k)
         == GetConfig(SetConfig(c, guild, key, value), g, k)
  {
  }
}
