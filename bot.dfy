/**
 * The bot's mutable stores (`ConfigurableBot`, main.py:25-54) and the
 * handlers that update them in place: `set_config`, the XP update of
 * `on_message` (main.py:126-143), `warn` and `del_warn` (main.py:278-291).
 * Writing the stores to their JSON files is left out; the bot starts with
 * empty stores, as `load_data` gives when a file is missing or corrupt.
 */
module BotState {
  import opened Wrappers
  import GuildConfig
  import opened Leveling
  import opened Warnings

  class Bot {
    var serverConfigs: GuildConfig.Configs
    var warningsData: WarningsData
    var levelsData: Levels
    var xpCooldowns: map<string, int>

    /** Every level record is one the leveling rule can produce. */
    ghost predicate Valid()
      reads this
    {
      AllConsistent(levelsData)
    }

    constructor ()
      ensures Valid()
      ensures serverConfigs == map[] && warningsData == map[] && levelsData == map[] && xpCooldowns == map[]
    {
      serverConfigs := map[];
      warningsData := map[];
      levelsData := map[];
      xpCooldowns := map[];
    }

    /** `get_config`: the stored value, or `None`. */
    function GetConfig(guild: string, key: string): (r: Option<GuildConfig.ConfigValue>)
      reads this
      ensures r.Some? <==> guild in serverConfigs && key in serverConfigs[guild]
      ensures r.Some? ==> r.value == serverConfigs[guild][key]
    {
      GuildConfig.GetConfig(serverConfigs, guild, key)
    }

    /** `set_config`: stores `value`, creating the guild's map if needed; nothing else changes. */
    method SetConfig(guild: string, key: string, value: GuildConfig.ConfigValue)
      modifies this
      ensures serverConfigs == GuildConfig.SetConfig(old(serverConfigs), guild, key, value)
      ensures GetConfig(guild, key) == Some(value)
      ensures forall g, k :: (g, k) != (guild, key) ==> GetConfig(g, k) == old(GetConfig(g, k))
      ensures warningsData == old(warningsData) && levelsData == old(levelsData) && xpCooldowns == old(xpCooldowns)
    {
      if guild !in serverConfigs {
        serverConfigs := serverConfigs[guild := map[]];
      }
      serverConfigs := serverConfigs[guild := serverConfigs[guild][key := value]];
    }

    /**
     * The XP part of `on_message`. Messages from bots or outside a guild, and
     * messages within 60 seconds of the sender's last counted one, change
     * nothing. Otherwise the cooldown stamp becomes `now` and the sender's
     * record gets `award` XP (a draw from [15, 25]) and perhaps one level;
     * `announced` is the new level when one was gained.
     */
    method OnMessage(fromBot: bool, guild: Option<string>, user: string, now: int, award: int)
      returns (announced: Option<int>)
      requires Valid()
      requires MinAward <= award <= MaxAward
      modifies this
      ensures Valid()
      ensures serverConfigs == old(serverConfigs) && warningsData == old(warningsData)
      ensures fromBot || guild.None? || OnCooldown(old(xpCooldowns), CooldownKey(guild.value, user), now) ==>
                xpCooldowns == old(xpCooldowns) && levelsData == old(levelsData) && announced == None
      ensures !(fromBot || guild.None? || OnCooldown(old(xpCooldowns), CooldownKey(guild.value, user), now)) ==>
                && xpCooldowns == old(xpCooldowns)[CooldownKey(guild.value, user) := now]
                && levelsData == AfterMessage(old(levelsData), guild.value, user, award)
                && var before := RecordOf(old(levelsData), guild.value, user);
                   announced == (if before.xp + award >= Threshold(before.level) then Some(before.level + 1) else None)
    {
      if fromBot || guild.None? {
        return None;
      }
      var g := guild.value;
      var key := CooldownKey(g, user);
      if key in xpCooldowns && now - xpCooldowns[key] < CooldownSeconds {
        return None;
      }
      xpCooldowns := xpCooldowns[key := now];
      ghost var levels0 := levelsData;
      var users := if g in levelsData then levelsData[g] else map[];
      var rec := if user in users then users[user] else NewRecord;
      assert rec == RecordOf(levels0, g, user);
      rec := rec.(xp := rec.xp + award);
      var needed := Threshold(rec.level);
      announced := None;
      if rec.xp >= needed {
        rec := rec.(level := rec.level + 1);
        announced := Some(rec.level);
      }
      assert rec == Award(RecordOf(levels0, g, user), award);
      levelsData := levelsData[g := users[user := rec]];
      AfterMessageSpec(levels0, g, user, award);
    }

    /** `warn`: appends one warning to the user's list and reports the new count. */
    method Warn(guild: string, user: string, reason: string, moderatorId: int, timestamp: string)
      returns (count: nat)
      modifies this
      ensures warningsData == AfterWarn(old(warningsData), guild, user, Warning(reason, moderatorId, timestamp))
      ensures count == |old(WarningsOf(warningsData, guild, user))| + 1
      ensures WarningsOf(warningsData, guild, user)[count - 1] == Warning(reason, moderatorId, timestamp)
      ensures serverConfigs == old(serverConfigs) && levelsData == old(levelsData) && xpCooldowns == old(xpCooldowns)
    {
      var users := if guild in warningsData then warningsData[guild] else map[];
      var list := if user in users then users[user] else [];
      list := list + [Warning(reason, moderatorId, timestamp)];
      warningsData := warningsData[guild := users[user := list]];
      count := |list|;
    }

    /** `del_warn`: removes warning number `n` (1-based) if it exists; `removed` says which reply is sent. */
    method DelWarn(guild: string, user: string, n: int) returns (removed: bool)
      modifies this
      ensures removed <==> 1 <= n <= |old(WarningsOf(warningsData, guild, user))|
      ensures AfterDelWarn(old(warningsData), guild, user, n) == DelOutcome(warningsData, removed)
      ensures serverConfigs == old(serverConfigs) && levelsData == old(levelsData) && xpCooldowns == old(xpCooldowns)
    {
      var userWarns := WarningsOf(warningsData, guild, user);
      if 1 <= n <= |userWarns| {
        warningsData := warningsData[guild := warningsData[guild][user := userWarns[..n - 1] + userWarns[n..]]];
        removed := true;
      } else {
        removed := false;
      }
    }
  }
}
