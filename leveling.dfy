/**
 * The leveling rule of `on_message` (main.py:126-143): a 60-second cooldown
 * per "{guild}-{user}" key, an XP award drawn from [15, 25], and at most one
 * level gained per message, at the threshold 5L^2 + 50L + 100.
 */
module Leveling {

  datatype LevelRecord = LevelRecord(xp: int, level: int)

  /** The record a user gets on their first counted message. */
  const NewRecord: LevelRecord := LevelRecord(0, 1)

  const CooldownSeconds: int := 60
  const MinAward: int := 15
  const MaxAward: int := 25

  /** XP needed to leave `level`. */
  function Threshold(level: int): int {
    5 * level * level + 50 * level + 100
  }

  /** Adds `amount` XP and gains one level if the new XP reaches the threshold of the current level. */
  function Award(r: LevelRecord, amount: int): LevelRecord {
    var xp := r.xp + amount;
    if xp >= Threshold(r.level) then LevelRecord(xp, r.level + 1) else LevelRecord(xp, r.level)
  }

  /**
   * An award never lowers XP or level; the level goes up by exactly one when
   * the new XP reaches the current threshold, and otherwise stays.
   */
  lemma AwardMonotone(r: LevelRecord, amount: int)
    requires MinAward <= amount <= MaxAward
    ensures Award(r, amount).xp == r.xp + amount > r.xp
    ensures Award(r, amount).level == r.level + 1 <==> r.xp + amount >= Threshold(r.level)
    ensures Award(r, amount).level == r.level <==> r.xp + amount < Threshold(r.level)
  {
  }

  /** One message never gains two levels, even when the XP passes two thresholds. */
  lemma OneLevelPerMessage()
    ensures Award(LevelRecord(300, 1), 15) == LevelRecord(315, 2)
    ensures 315 >= Threshold(2)
  {
  }

  lemma {:induction false} ThresholdStep(level: int)
    requires level >= 1
    ensures Threshold(level + 1) == Threshold(level) + 10 * level + 55
  {
    calc {
      Threshold(level + 1);
      5 * (level + 1) * (level + 1) + 50 * (level + 1) + 100;
      { assert (level + 1) * (level + 1) == level * level + 2 * level + 1; }
      5 * level * level + 10 * level + 5 + 50 * level + 50 + 100;
      Threshold(level) + 10 * level + 55;
    }
  }

  lemma {:induction false} ThresholdMonotone(a: int, b: int)
    requires 1 <= a <= b
    ensures Threshold(a) <= Threshold(b)
    decreases b - a
  {
    if a < b {
      ThresholdStep(a);
      ThresholdMonotone(a + 1, b);
    }
  }

  /**
   * The records `on_message` builds: the level is the one the XP has earned,
   * Threshold(level - 1) <= xp < Threshold(level).
   */
  predicate Consistent(r: LevelRecord) {
    && r.level >= 1
    && 0 <= r.xp < Threshold(r.level)
    && (r.level >= 2 ==> r.xp >= Threshold(r.level - 1))
  }

  lemma NewRecordConsistent()
    ensures Consistent(NewRecord)
  {
  }

  /**
   * Awards of at most 25 XP keep a record consistent: the next threshold is
   * always at least 65 XP above the current one, so one award can never cross
   * two thresholds and the one-level-per-message limit never loses a level.
   */
  lemma {:induction false} AwardKeepsConsistent(r: LevelRecord, amount: int)
    requires Consistent(r)
    requires MinAward <= amount <= MaxAward
    ensures Consistent(Award(r, amount))
  {
    ThresholdStep(r.level);
  }

  /** In a consistent record the level is determined by the XP alone. */
  lemma {:induction false} ConsistentLevelUnique(r1: LevelRecord, r2: LevelRecord)
    requires Consistent(r1) && Consistent(r2) && r1.xp == r2.xp
    ensures r1.level == r2.level
  {
    if r1.level < r2.level {
      ThresholdMonotone(r1.level, r2.level - 1);
    } else if r2.level < r1.level {
      ThresholdMonotone(r2.level, r1.level - 1);
    }
  }

  /** The cooldown key `f"{guild_id}-{user_id}"`. */
  function CooldownKey(guild: string, user: string): string {
    guild + "-" + user
  }

  /** Ids printed by `str()` of an integer contain no '-' other than a sign, which ids never have. */
  predicate NoDash(s: string) {
    forall i :: 0 <= i < |s| ==> s[i] != '-'
  }

  /** Distinct (guild, user) pairs never share a cooldown. */
  lemma {:induction false} CooldownKeyInjective(g1: string, u1: string, g2: string, u2: string)
    requires NoDash(g1) && NoDash(g2)
    requires CooldownKey(g1, u1) == CooldownKey(g2, u2)
    ensures g1 == g2 && u1 == u2
  {
    var k := CooldownKey(g1, u1);
    assert k[|g1|] == '-' && k[|g2|] == '-';
    assert |g1| == |g2|;
    assert g1 == k[..|g1|] == g2;
    assert u1 == k[|g1| + 1..] == u2;
  }

  /** A message is ignored while the key was stamped less than 60 seconds before `now`. */
  predicate OnCooldown(stamps: map<string, int>, key: string, now: int) {
    key in stamps && now - stamps[key] < CooldownSeconds
  }

  type Levels = map<string, map<string, LevelRecord>>

  /** The user's record, or the fresh one `on_message` creates. */
  function RecordOf(levels: Levels, guild: string, user: string): LevelRecord {
    if guild in levels && user in levels[guild] then levels[guild][user] else NewRecord
  }

  /** The level store after a counted message from `user` in `guild`. */
  function AfterMessage(levels: Levels, guild: string, user: string, amount: int): (l: Levels)
    ensures l.Keys == levels.Keys + {guild}
  {
    var users := if guild in levels then levels[guild] else map[];
    levels[guild := users[user := Award(RecordOf(levels, guild, user), amount)]]
  }

  predicate AllConsistent(levels: Levels) {
    forall g, u :: g in levels && u in levels[g] ==> Consistent(levels[g][u])
  }

  /**
   * A counted message changes only the sender's record, creating it at
   * xp 0 / level 1 if needed, never lowers it, and keeps every record consistent.
   */
  lemma {:induction false} AfterMessageSpec(levels: Levels, guild: string, user: string, amount: int)
    requires AllConsistent(levels)
    requires MinAward <= amount <= MaxAward
    ensures AllConsistent(AfterMessage(levels, guild, user, amount))
    ensures forall g, u :: g in levels && u in levels[g] ==>
              g in AfterMessage(levels, guild, user, amount) && u in AfterMessage(levels, guild, user, amount)[g]
    ensures RecordOf(AfterMessage(levels, guild, user, amount), guild, user).xp > RecordOf(levels, guild, user).xp
    ensures RecordOf(AfterMessage(levels, guild, user, amount), guild, user).level >= RecordOf(levels, guild, user).level
    ensures forall g, u :: (g, u) != (guild, user) ==>
              RecordOf(AfterMessage(levels, guild, user, amount), g, u) == RecordOf(levels, g, u)
  {
    var r := RecordOf(levels, guild, user);
    NewRecordConsistent();
    assert Consistent(r);
    AwardKeepsConsistent(r, amount);
  }
}
