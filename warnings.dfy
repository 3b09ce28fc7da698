/**
 * Warning lists of `warn` and `del_warn` (main.py:278-291): per guild and
 * user, an ordered list of warnings, appended to by `warn` and shortened by
 * `del_warn` at a 1-based index.
 */
module Warnings {

  /** `{'reason': ..., 'moderator_id': ..., 'timestamp': ...}`; the timestamp is an ISO string. */
  datatype Warning = Warning(reason: string, moderatorId: int, timestamp: string)

  type WarningsData = map<string, map<string, seq<Warning>>>

  /** `warnings_data.get(guild, {}).get(user, [])`. */
  function WarningsOf(data: WarningsData, guild: string, user: string): seq<Warning> {
    if guild in data && user in data[guild] then data[guild][user] else []
  }

  /** The list without its `n`-th entry (`pop(n - 1)`). */
  function RemovedAt(ws: seq<Warning>, n: int): seq<Warning>
    requires 1 <= n <= |ws|
  {
    ws[..n - 1] + ws[n..]
  }

  /** `pop(n - 1)` removes exactly the `n`-th warning and keeps the others in order. */
  lemma RemovedAtSpec(ws: seq<Warning>, n: int)
    requires 1 <= n <= |ws|
    ensures |RemovedAt(ws, n)| == |ws| - 1
    ensures forall i :: 0 <= i < n - 1 ==> RemovedAt(ws, n)[i] == ws[i]
    ensures forall i :: n - 1 <= i < |ws| - 1 ==> RemovedAt(ws, n)[i] == ws[i + 1]
    ensures multiset(RemovedAt(ws, n)) + multiset{ws[n - 1]} == multiset(ws)
  {
    assert ws == ws[..n - 1] + [ws[n - 1]] + ws[n..];
  }

  /** Putting the removed warning back at its place gives the original list. */
  lemma RemovedAtReinsert(ws: seq<Warning>, n: int)
    requires 1 <= n <= |ws|
    ensures RemovedAt(ws, n)[..n - 1] + [ws[n - 1]] + RemovedAt(ws, n)[n - 1..] == ws
  {
    var r := RemovedAt(ws, n);
    assert r[..n - 1] == ws[..n - 1];
    assert r[n - 1..] == ws[n..];
    assert ws == ws[..n - 1] + [ws[n - 1]] + ws[n..];
  }

  /** The store after `warn`: the user's list, created if missing, gets one more entry at the end. */
  function AfterWarn(data: WarningsData, guild: string, user: string, w: Warning): (d: WarningsData)
    ensures d.Keys == data.Keys + {guild}
  {
    var users := if guild in data then data[guild] else map[];
    data[guild := users[user := WarningsOf(data, guild, user) + [w]]]
  }

  /** The outcome of `del_warn`: the store afterwards, and whether the number was valid. */
  datatype DelOutcome = DelOutcome(data: WarningsData, removed: bool)

  /** `del_warn(n)`: removes the `n`-th warning when 1 <= n <= the list's length, else changes nothing. */
  function AfterDelWarn(data: WarningsData, guild: string, user: string, n: int): DelOutcome {
    var ws := WarningsOf(data, guild, user);
    if 1 <= n <= |ws| then DelOutcome(data[guild := data[guild][user := RemovedAt(ws, n)]], true)
    else DelOutcome(data, false)
  }

  /**
   * `warn` adds exactly one warning at the end of this user's list, the
   * reported count is the new length, and no other list changes.
   */
  lemma AfterWarnSpec(data: WarningsData, guild: string, user: string, w: Warning)
    ensures WarningsOf(AfterWarn(data, guild, user, w), guild, user) == WarningsOf(data, guild, user) + [w]
    ensures |WarningsOf(AfterWarn(data, guild, user, w), guild, user)| == |WarningsOf(data, guild, user)| + 1
    ensures forall g, u :: (g, u) != (guild, user) ==>
              WarningsOf(AfterWarn(data, guild, user, w), g, u) == WarningsOf(data, g, u)
  {
  }

  /**
   * `del_warn(n)` succeeds exactly for 1 <= n <= length; then it removes the
   * `n`-th warning of this user only; otherwise the store is unchanged.
   */
  lemma AfterDelWarnSpec(data: WarningsData, guild: string, user: string, n: int)
    ensures AfterDelWarn(data, guild, user, n).removed <==> 1 <= n <= |WarningsOf(data, guild, user)|
    ensures !AfterDelWarn(data, guild, user, n).removed ==> AfterDelWarn(data, guild, user, n).data == data
    ensures AfterDelWarn(data, guild, user, n).removed ==>
              WarningsOf(AfterDelWarn(data, guild, user, n).data, guild, user) == RemovedAt(WarningsOf(data, guild, user), n)
    ensures forall g, u :: (g, u) != (guild, user) ==>
              WarningsOf(AfterDelWarn(data, guild, user, n).data, g, u) == WarningsOf(data, g, u)
  {
  }

  /** Deleting the warning just given (its number is the reported count) restores the list. */
  lemma WarnThenDeleteRestores(data: WarningsData, guild: string, user: string, w: Warning)
    ensures var d := AfterWarn(data, guild, user, w);
            var n := |WarningsOf(d, guild, user)|;
            AfterDelWarn(d, guild, user, n).removed &&
            WarningsOf(AfterDelWarn(d, guild, user, n).data, guild, user) == WarningsOf(data, guild, user)
  {
    var ws := WarningsOf(data, guild, user);
    assert RemovedAt(ws + [w], |ws| + 1) == ws;
  }
}
