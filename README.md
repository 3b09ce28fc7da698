# A verified model of the Discord bot's state logic

`main.py` is a Discord bot: moderation commands, a leveling system, giveaways,
an embed builder and a per-guild music player. Almost all of it is calls into
the Discord SDK, yt-dlp, Spotify and FFmpeg. Inside that glue are a few small
rules that can be stated exactly, and this project models those rules in Dafny
and proves what they promise:

- duration texts such as "1h30m" (`parse_duration`) and the `mute` and
  `giveaway` commands that gate on them (`duration.dfy`);
- the per-guild settings store (`config.dfy`);
- XP, levels and the 60-second cooldown of `on_message` (`leveling.dfy`);
- the leaderboard ranking (`leaderboard.dfy`);
- warning lists (`warnings.dfy`);
- the bot's stores and the handlers that update them in place (`bot.dfy`,
  class `Bot`);
- giveaway entries and the winner draw (`giveaway.dfy`);
- the embed builder's colour, inline and 25-field rules (`embed.dfy`);
- the music player:
  - queue, loop, shuffle, teardown, next-song selection and the queue
    listing (`music_queue.dfy`);
  - Spotify link classification and the YouTube search fallback
    (`music_search.dfy`);
  - the `Music` command group's state and the commands that change it
    (`music.dfy`).

`text.dfy` holds the string helpers: Python's `str.lower`, `in` on strings,
decimal and hexadecimal numerals. `wrappers.dfy` holds `Option`.

Everything outside the bot is a parameter of the model:

- the random draws (the XP award, the winner, the shuffle's draws);
- the clock, as whole seconds;
- the Spotify client's answers;
- the YouTube search;
- the voice client, reduced to "connected", "playing" and the song its
  source carries.

Three behaviours of the code are easy to misread, and the model states them
as the code has them:

- A giveaway can end without a winner although somebody joined: the drawn
  id is 0, or the bot cannot look the user up (main.py:201). The bot then
  announces "Zwycięzca: Brak (nikt nie wziął udziału)" (main.py:205), which
  says nobody took part.
- A single Spotify playlist track without artists makes the whole playlist
  fail; the other tracks are not searched either (main.py:589-591).
- `on_message` raises the level by one at most per message (main.py:136-139),
  even when the XP passes two thresholds. For records built by `on_message`
  that never happens: each award is at most 25 XP, and consecutive
  thresholds are at least 65 XP apart (`Leveling.AwardKeepsConsistent`).
  Only a hand-edited `levels.json` can reach that case, and
  `Leveling.OneLevelPerMessage` exhibits it there.

## Model

| member | source | states |
|---|---|---|
| Text.Lower | main.py:98 | lower-cases A-Z and the Kelvin sign character by character, keeping the length; every other character is kept |
| Text.ContainsAt | main.py:585-589 | the substring test `sub in s` holds exactly when `sub` occurs in `s` at some position |
| Text.NatToStringRoundTrip | main.py:671 | the decimal numeral printed for a count reads back as that count |
| Text.HexValueBound | main.py:396 | a hex numeral of n digits is below 16^n |
| Text.HexPaddedRoundTrip | main.py:396 | `int(h, 16)` reads back a number written as zero-padded hex digits |
| Duration.DigitRun | main.py:98 | `\d+` takes the maximal run of digits at a position |
| Duration.HasUnitAfterDigitFrom | main.py:98 | skipping a prefix in which no digit is followed by a unit letter, not even across its end, does not change whether the text has such a pair |
| Duration.Matches | main.py:98 | `re.findall(r'(\d+)([dhms])', ...)`: left to right, each maximal digit run followed by a unit letter gives one (value, unit) match, and scanning resumes after the letter |
| Duration.MatchesEmptyIff | main.py:98-99 | `findall` finds nothing exactly when no digit is immediately followed by d, h, m or s |
| Duration.MatchesConcat | main.py:98 | the matches of `x + y` are those of `x` followed by those of `y` when `x` does not end in a digit |
| Duration.MatchesConcatAtRun | main.py:98 | the same, when `x` starts with a digit run |
| Duration.RunStep | main.py:98 | at a digit run inside `x`, the scans of `x` and of `x + y` make the same match, if any, and resume at the same position |
| Duration.MatchesOf28d1h | main.py:98 | `findall` on "28d1h" gives (28, d) then (1, h) |
| Duration.TotalConcat | main.py:102-103 | summing the matches' seconds is additive over concatenated match lists |
| Duration.Total | main.py:100-103 | the seconds of the `timedelta` built from the matches: value × 86400, 3600, 60 or 1 by unit, summed |
| Duration.TotalByUnit | main.py:100-103 | building the `timedelta` from the four per-unit counters of `delta_args` gives the sum of the matches' seconds |
| Duration.WrittenSeconds | main.py:97-103 | the seconds written in the text: the total of the matches of its lower-cased form |
| Duration.DurationOf | main.py:97-103 | `None` exactly when nothing matches; otherwise the sum of value × 86400/3600/60/1 over the matches, and `OverflowError` exactly when that exceeds 999999999 days |
| Duration.ParseDuration | main.py:100-103 | the loop accumulating `delta_args` per unit computes exactly `DurationOf` |
| Duration.DurationsAccumulate | main.py:102 | repeated units add up: the seconds of two texts written one after the other are the sum of their seconds |
| Duration.MuteGate | main.py:254-256 | `mute` accepts a duration exactly when it parsed and 0 < seconds < 29 days, and passes on those seconds; overflow escapes |
| Duration.GiveawayGate | main.py:373-375 | `giveaway` accepts exactly the parsed non-zero durations that end no later than `datetime.max`; the parse overflow and an end time past `datetime.max` raise |
| Duration.ZeroRefusedByBoth | main.py:254-256 | a text that parses to zero seconds ("0m") is refused by `mute` and by `giveaway` |
| Duration.MuteGateAdmitsOverLimit | main.py:255 | the guard `duration.days > 28` accepts "28d1h", which is longer than 28 days |
| Duration.MuteGateIntended | main.py:249 | the guard the command promises, "max 28 dni": accepted exactly when 0 < seconds <= 28 days |
| Duration.MuteGateIntendedWithinLimit | main.py:249-256 | the intended guard never passes more than 28 days and agrees with the written guard up to that limit |
| GuildConfig.SetConfig | main.py:50-54 | `set_config` creates the guild's map if missing and adds no other guild |
| GuildConfig.GetAfterSet | main.py:47-54 | after `set_config(g, k, v)`, `get_config(g, k)` is `v` |
| GuildConfig.SetLeavesOthers | main.py:47-54 | `set_config(g, k, v)` leaves every other (guild, key) pair as it was |
| GuildConfig.GetUnset | main.py:47-48 | a pair never set reads as `None`, whether the guild or only the key is missing |
| GuildConfig.SetIdempotent | main.py:50-54 | setting the same value twice reads like setting it once |
| BotState.Bot.constructor | main.py:33-42 | the bot starts with empty stores, as `load_data` gives for a missing or corrupt file |
| BotState.Bot.GetConfig | main.py:47-48 | `get_config` returns the stored value exactly when guild and key are present |
| BotState.Bot.SetConfig | main.py:50-54 | `set_config` stores the value, which reads back, changes no other pair and no other store |
| Leveling.Threshold | main.py:137 | `xp_needed = 5L² + 50L + 100` for level L |
| Leveling.Award | main.py:135-139 | an award adds the XP and raises the level by one when the new XP reaches the threshold of the current level |
| Leveling.AwardMonotone | main.py:135-139 | an award raises XP by the award; the level rises by exactly one when the new XP reaches 5L²+50L+100, else it stays |
| Leveling.OneLevelPerMessage | main.py:138-139 | one message gains at most one level even when the XP passes two thresholds |
| Leveling.ThresholdStep | main.py:137 | consecutive thresholds differ by 10L + 55 |
| Leveling.ThresholdMonotone | main.py:137 | thresholds increase with the level |
| Leveling.NewRecordConsistent | main.py:134 | the fresh record (xp 0, level 1) has the level its XP has earned |
| Leveling.AwardKeepsConsistent | main.py:135-139 | an award of 15-25 XP keeps a record's level equal to the level its XP has earned |
| Leveling.ConsistentLevelUnique | main.py:137-139 | in such records the level is determined by the XP alone |
| Leveling.CooldownKeyInjective | main.py:130 | distinct (guild, user) pairs never share a cooldown key "guild-user" |
| Leveling.AfterMessage | main.py:133-139 | a counted message adds only the sender's guild to the level store |
| Leveling.AfterMessageSpec | main.py:133-139 | a counted message changes only the sender's record, creates it if needed, never lowers XP or level, and keeps every record consistent |
| BotState.Bot.OnMessage | main.py:127-143 | messages from bots, from outside a guild or within 60 s of the sender's last counted one change nothing; otherwise the stamp becomes now, the record gets the award, and the announced level is the one gained |
| Warnings.RemovedAtSpec | main.py:290 | `pop(n - 1)` removes exactly the n-th warning and keeps the others in order |
| Warnings.RemovedAtReinsert | main.py:290 | putting the removed warning back at its place restores the list |
| Warnings.AfterWarn | main.py:281-284 | `warn` adds only the warned user's guild to the store |
| Warnings.AfterWarnSpec | main.py:281-285 | `warn` appends exactly one warning at the end of this user's list, the reported count is the new length, and no other list changes |
| Warnings.AfterDelWarn | main.py:289-291 | `del_warn(n)` pops the n-th warning of the user when 1 <= n <= the list's length, and otherwise changes nothing |
| Warnings.AfterDelWarnSpec | main.py:289-291 | `del_warn(n)` succeeds exactly for 1 <= n <= length and then removes the n-th warning of this user only; otherwise nothing changes |
| Warnings.WarnThenDeleteRestores | main.py:281-291 | deleting the warning just given, by its reported number, restores the list |
| BotState.Bot.Warn | main.py:280-285 | `warn` updates the store in place as `AfterWarn` and reports the new count, with the new warning last |
| BotState.Bot.DelWarn | main.py:288-291 | `del_warn` reports success exactly for a valid number and updates the store in place as `AfterDelWarn` |
| Leaderboard.Insert | main.py:325 | one step of the stable descending sort: the item goes after every item ranking at least as high |
| Leaderboard.InsertBounded | main.py:325 | a key at or above the inserted item and every item of the ranking stays at or above every item after the insertion |
| Leaderboard.InsertSorted | main.py:325 | inserting into a ranking keeps it sorted by (level, xp) descending |
| Leaderboard.InsertPermutes | main.py:325 | insertion adds exactly the item and loses nothing |
| Leaderboard.RanksBelow | main.py:325 | an item ranking strictly above the head of a ranking shares its key with no item of it |
| Leaderboard.InsertStable | main.py:325 | insertion places an item after every earlier item of equal key |
| Leaderboard.SortDesc | main.py:325 | `sorted(..., key=(level, xp), reverse=True)` as an insertion sort of the records in order |
| Leaderboard.SortDescStableStep | main.py:325 | one insertion step keeps every key's items in their original order |
| Leaderboard.SortDescSpec | main.py:325 | `sorted(..., reverse=True)` orders by (level, xp) descending, is a permutation, and keeps items of equal key in their original order |
| Leaderboard.LeaderboardReply | main.py:323-327 | the notice for a guild without records, else the first ten rows of the sorted records |
| Leaderboard.LeaderboardSpec | main.py:323-327 | a guild without records gets the notice; otherwise at most ten users, all from the guild's records, ranked, forming the top of the complete stable ranking |
| Leaderboard.TopRows | main.py:327 | the first rows of a ranking are sorted, drawn from it, and rank at or above every row left out |
| Giveaway.Entrants | main.py:186-188 | the participants after a sequence of join clicks: each click adds its user to the set |
| Giveaway.AcceptedJoins | main.py:186-188 | the number of join clicks not refused with "Już bierzesz udział!" |
| Giveaway.EntrantsCount | main.py:186-188 | every accepted join adds one participant and a refused repeat adds none; everyone who joined takes part |
| Giveaway.RejoinChangesNothing | main.py:187 | a second join by a participant changes neither the set nor the number of accepted joins |
| Giveaway.Draw | main.py:199 | no winner exactly when nobody joined; otherwise the winner is a participant |
| Giveaway.EndingOf | main.py:189-206 | nothing is announced when the message is gone; a winner is a participant with a non-zero id the bot can look up; nobody joining means no winner |
| Giveaway.GiveawayView.constructor | main.py:183-184 | a giveaway starts with no participants |
| Giveaway.GiveawayView.Join | main.py:186-188 | a join, possible only before the timeout, is refused exactly when the user already takes part; afterwards the user takes part |
| Giveaway.GiveawayView.OnTimeout | main.py:189-208 | the timeout disables the buttons and ends as `EndingOf` with the drawn participant |
| EmbedBuilder.ParseColor | main.py:394-398 | the colour `int(s[1:], 16)` for a text the pattern `^#(?:[0-9a-fA-F]{3}){1,2}$` matches, else none |
| EmbedBuilder.ParseColorSpec | main.py:394-398 | a colour is accepted exactly when it is '#' and 3 or 6 hex digits (optionally one trailing newline, which `$` allows) and its value is those digits in base 16 |
| EmbedBuilder.ParseColorPlain | main.py:394-396 | '#' and three or six hex digits is accepted with those digits' value |
| EmbedBuilder.ParseColorNewline | main.py:394-396 | the same text followed by one newline is accepted with the same value |
| EmbedBuilder.ParseColorBound | main.py:395-396 | an accepted colour is a 24-bit value |
| EmbedBuilder.ColorRoundTrip | main.py:395-396 | every RGB value written as '#' and six hex digits is accepted with that value |
| EmbedBuilder.ShortColorNotExpanded | main.py:395-396 | "#fff" is 0xfff, not expanded to 0xffffff; "#ff00" and "ff0000" fall back to the default |
| EmbedBuilder.Inline | main.py:412 | a field is inline when the lower-cased answer is one of tak, yes, true, t |
| EmbedBuilder.InlineAnswers | main.py:404-412 | "Tak", "YES", "t" make a field inline and "Nie", "no" and the empty answer do not; a three-character box can only hold tak, yes or t |
| EmbedBuilder.InlineIgnoresCase | main.py:412 | the inline answer is compared case-insensitively |
| EmbedBuilder.EmbedDraft.constructor | main.py:421 | the draft starts as "Nowy Embed" with no colour and no fields |
| EmbedBuilder.EmbedDraft.SubmitCore | main.py:390-398 | title and description are replaced, and the colour becomes the parsed one or the default 0 |
| EmbedBuilder.EmbedDraft.SubmitField | main.py:409-414 | adding a field is refused exactly when 25 exist; otherwise one field is appended; a draft never holds more than 25 |
| MusicQueue.Toggled | main.py:515 | `toggle_loop` negates the guild's flag (unset counts as off) and touches no other guild |
| MusicQueue.ToggleTwice | main.py:515 | toggling twice restores the flag |
| MusicQueue.ResetQueue | main.py:510 | `teardown` creates no queue entry |
| MusicQueue.ResetLoop | main.py:511 | `teardown` creates no loop entry |
| MusicQueue.TeardownSpec | main.py:504-511 | after `teardown` the guild's queue is empty and its loop off, other guilds are untouched, and a second teardown changes nothing |
| MusicQueue.Select | main.py:533-539 | the song `play_next` plays: the current one again when looping, else the queue's head, else the end |
| MusicQueue.SelectSpec | main.py:533-539 | loop on with a loaded song replays it; otherwise a non-empty queue yields its head and keeps its tail in order; otherwise playback ends |
| MusicQueue.SwapPermutes | main.py:519 | one swap of the shuffle keeps the same songs |
| MusicQueue.ShuffleDownPermutes | main.py:519 | the shuffle's swaps keep the same songs |
| MusicQueue.Shuffled | main.py:519 | `random.shuffle` with its draws: from the last position down to 1, swap position i with the drawn j <= i |
| MusicQueue.ShuffledPermutes | main.py:516-519 | `random.shuffle` keeps exactly the same songs, each as often as before |
| MusicQueue.Shuffle | main.py:519 | the in-place swap loop of `random.shuffle` computes `Shuffled` and is a permutation |
| MusicQueue.EntryLinesNumbered | main.py:670 | the k-th listed line shows number first + k and the k-th song's title |
| MusicQueue.QueueListing | main.py:669-671 | the numbered lines of the first 15 songs and the count of the rest |
| MusicQueue.QueueDescription | main.py:660-671 | the `queue` embed text: the now-playing header when a song is loaded, then "Kolejka jest pusta." or the listing with its "... i N więcej." tail |
| MusicQueue.QueueListingSpec | main.py:666-671 | the listing names the first 15 songs in order, numbered from 1, and counts the rest, which is non-zero exactly when more than 15 are queued |
| MusicSearch.TrackQuery | main.py:587 | a track gives the search text "name artist" exactly when it has an artist |
| MusicSearch.PresentTracks | main.py:590 | a playlist has at most as many present tracks as items |
| MusicSearch.PlaylistQueries | main.py:590 | the search texts of a playlist's present tracks, or a failure when one has no artists |
| MusicSearch.PlaylistQueriesSpec | main.py:590 | a playlist fails exactly when a present track has no artists; otherwise one search text per present track, in order |
| MusicSearch.Classify | main.py:585-593 | the search texts for `play`'s query: as typed, from a Spotify track or playlist, none for another Spotify link, or the Spotify error |
| MusicSearch.ClassifySpec | main.py:585-593 | without a client or a Spotify link the query is searched as typed; a track link gives one text or fails; a playlist link gives one text per present item or fails; another Spotify link gives none |
| MusicSearch.FirstHit | main.py:558-567 | the first song found by the searches for the query with each suffix in turn |
| MusicSearch.FindSong | main.py:554-569 | `search_song_on_yt`'s song: the first hit over the suffixes "", " lyrics", " audio" |
| MusicSearch.FirstHitSpec | main.py:558-567 | the result is the first successful search in suffix order, and there is none exactly when all fail |
| MusicSearch.FindSongSpec | main.py:554-569 | the song is the first hit of the query, the query + " lyrics" and the query + " audio", in that order |
| MusicSearch.SearchSongOnYt | main.py:554-569 | the loop over the suffixes returns the first song found, or the not-found error exactly when none is |
| MusicSearch.Found | main.py:599-603 | at most one song is added per search text |
| MusicSearch.FoundSpec | main.py:599-603 | every added song was found for some search text, and none is added exactly when every search fails |
| MusicSearch.HitIndices | main.py:599-603 | the positions of the search texts a song was found for, in order |
| MusicSearch.FoundInOrder | main.py:599-603 | the k-th added song is the song of the k-th search text that found one; those texts' positions strictly increase, and a text is skipped exactly when its search found nothing |
| MusicPlayer.Music.constructor | main.py:491-496 | the player starts with no queues, loop flags or now-playing messages |
| MusicPlayer.Music.GetQueue | main.py:513 | `get_queue` is the guild's queue, or empty when it has none |
| MusicPlayer.Music.IsLooping | main.py:514 | `is_looping`: the guild's flag, off when unset |
| MusicPlayer.Music.ToggleLoop | main.py:515 | `toggle_loop` stores and returns the negated flag and changes nothing else |
| MusicPlayer.Music.ShuffleQueue | main.py:516-519 | `shuffle_queue` returns false exactly for an empty or missing queue; otherwise it shuffles that queue in place, keeping its songs |
| MusicPlayer.Music.Teardown | main.py:504-511 | `teardown` forgets the now-playing message and resets an existing queue and loop flag |
| MusicPlayer.Music.PlayNext | main.py:521-549 | without a connection it tears down; otherwise it plays the song `Select` chooses, popping the queue's head when that is the song, and tears down at the end of the queue |
| MusicPlayer.Music.Stop | main.py:638-642 | `stop` with a voice client empties the guild's queue, creating it if missing; without one nothing changes |
| MusicPlayer.Music.Enqueue | main.py:599-603 | the songs found for the search texts are appended to the queue in order |
| MusicPlayer.Music.Play | main.py:572-616 | outside a voice channel nothing changes; otherwise the queue is created first, Spotify errors stop there, found songs are appended in order, and `play_next` starts exactly when songs were added and nothing is playing |

## Left out

- Discord SDK effects are not modelled: messages, embeds, views, modals, roles, ticket channels, permission checks and the `top_role` comparisons.
- JSON persistence is not modelled (`load_data`, `save_data`). The stores start empty, as `load_data` gives for a missing or corrupt file.
- Guild and user ids are the dict keys the stores use: strings in the bot's stores, integers in the music player. The `str()` conversion at each call is not modelled.
- Time is whole seconds. The model leaves out `utcnow()`, `total_seconds()` as a float and the views' timeouts. The giveaway's end time enters only as `horizon`, the whole seconds from now until `datetime.max`.
- Duration.GiveawayGate: the microseconds of `utcnow()` are not modelled, so an end time within the last second before `datetime.max` may be decided differently.
- Random draws are parameters: the XP award, the giveaway winner and the shuffle's draws. Uniformity is not a property of this model.
- Duration.Matches: `\d` in Python also matches non-ASCII decimal digits. The model reads ASCII digits only.
- Duration.DurationOf: CPython's limit on the length of an `int()` digit string is not modelled.
- Text.Lower: Python lower-cases all of Unicode, and can lengthen a string (U+0130 becomes 'i' and U+0307) or look at neighbours (the final sigma). The model keeps the length and maps only A-Z and the Kelvin sign. No other character lowers to a digit, a unit letter d, h, m, s, or a letter of the yes-words, so durations and inline answers come out the same.
- Leaderboard.LeaderboardSpec: a dict's iteration order is its insertion order, which the model takes as the order of its input. The rendered text of the ranking is not modelled.
- BotState.Bot.OnMessage: a stored record always has both 'xp' and 'level'. Records lacking one are modelled only in the leaderboard, where `.get(..., 0)` handles them.
- The level card (`level`) is not modelled: it uses float progress arithmetic.
- Music volume is not modelled (float arithmetic). Neither are `skip`, `pause`, `resume` and `nowplaying`: each only drives the voice client.
- The `after=` callback chain of `play_next` and its races with `skip` and `stop` are not modelled. They are concurrency.
- MusicPlayer.Music.PlayNext: a playback error retries `play_next` recursively; that path is not modelled. The voice disconnect in `teardown` belongs to the platform and is not modelled either.
- MusicSearch.Classify: the track call is assumed to return the same track both times it is made. Only the first page of playlist items is seen, as the client returns it.
- MusicQueue.QueueDescription renders the listing text. Its content is proved through `QueueListing`.
- The following are not modelled: the embed builder's send and timeout, the `history` rendering, the ticket and verification panels, 8ball, ship, meme, the interaction GIFs, presence updates and startup.
- EmbedBuilder.ParseColor: the text box's `max_length=7` is not enforced. The function accepts any text, so the newline form of a six-digit colour is modelled although the box cannot hold it.

## Findings

| source | as written | input that shows it | evidently intended | confidence | as-written member | corrected member |
|---|---|---|---|---|---|---|
| main.py:255 | `duration.days > 28` refuses only from 29 whole days on | "28d1h" is accepted as 28 days and 1 hour, longer than the "max 28 dni" the command promises and the platform's 28-day timeout limit | refuse any duration longer than 28 days (more than 2419200 seconds) | high, derived from the code (not executed) | Duration.MuteGateAdmitsOverLimit | Duration.MuteGateIntended |
