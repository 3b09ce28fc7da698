/**
 * The state of the `Music` command group (main.py:490-673) and the commands
 * that change it in place: `toggle_loop`, `shuffle_queue`, `teardown`,
 * `play_next`, `stop` and the enqueueing of `play`. The voice client is
 * reduced to what the decisions read: whether it is connected or playing,
 * and the song its source carries (`current`).
 */
module MusicPlayer {
  import opened Wrappers
  import opened MusicQueue
  import opened MusicSearch

  /** The reply `play` ends with. */
  datatype PlayOutcome =
    | NotInVoice              // "Musisz być na kanale głosowym!"
    | SpotifyTrackError       // "Błąd przetwarzania utworu Spotify"
    | SpotifyPlaylistError    // "Błąd przetwarzania playlisty Spotify"
    | NothingFound            // "Nie udało się znaleźć żadnych pasujących utworów."
    | Added(songs: seq<Song>) // the songs appended to the queue

  class Music {
    var queues: Queues
    var loopStates: LoopStates
    /** The id of each guild's "Teraz odtwarzane" message. */
    var nowPlaying: map<int, int>

    constructor ()
      ensures queues == map[] && loopStates == map[] && nowPlaying == map[]
    {
      queues := map[];
      loopStates := map[];
      nowPlaying := map[];
    }

    /** `get_queue`. */
    function GetQueue(guild: int): (q: seq<Song>)
      reads this
      ensures guild !in queues ==> q == []
      ensures guild in queues ==> q == queues[guild]
    {
      QueueOf(queues, guild)
    }

    /** `is_looping`. */
    predicate IsLooping(guild: int)
      reads this
    {
      Looping(loopStates, guild)
    }

    /** `toggle_loop`: stores and returns the negated flag. */
    method ToggleLoop(guild: int) returns (state: bool)
      modifies this
      ensures loopStates == Toggled(old(loopStates), guild)
      ensures state == IsLooping(guild) == !old(IsLooping(guild))
      ensures queues == old(queues) && nowPlaying == old(nowPlaying)
    {
      var looping := guild in loopStates && loopStates[guild];
      loopStates := loopStates[guild := !looping];
      state := loopStates[guild];
    }

    /** `shuffle_queue`: false for an empty or missing queue, else the queue is shuffled in place. */
    method ShuffleQueue(guild: int, draws: seq<int>) returns (shuffled: bool)
      requires ValidDraws(draws, |GetQueue(guild)|)
      modifies this
      ensures shuffled <==> old(GetQueue(guild)) != []
      ensures shuffled ==> queues == old(queues)[guild := Shuffled(old(GetQueue(guild)), draws)]
      ensures !shuffled ==> queues == old(queues)
      ensures multiset(GetQueue(guild)) == multiset(old(GetQueue(guild)))
      ensures loopStates == old(loopStates) && nowPlaying == old(nowPlaying)
    {
      var queue := GetQueue(guild);
      if queue == [] {
        return false;
      }
      var q := Shuffle(queue, draws);
      queues := queues[guild := q];
      shuffled := true;
    }

    /**
     * `teardown`: forgets the now-playing message and resets an existing
     * queue and loop flag; the voice disconnect is the platform's.
     */
    method Teardown(guild: int)
      modifies this
      ensures queues == ResetQueue(old(queues), guild)
      ensures loopStates == ResetLoop(old(loopStates), guild)
      ensures nowPlaying == old(nowPlaying) - {guild}
    {
      nowPlaying := nowPlaying - {guild};
      if guild in queues {
        queues := queues[guild := []];
      }
      if guild in loopStates {
        loopStates := loopStates[guild := false];
      }
    }

    /**
     * `play_next`. Without a connected voice client it tears down. Otherwise
     * it forgets the old now-playing message and plays the song `Select`
     * chooses, popping the queue's head when that is the song, and records
     * `messageId` as the new now-playing message; at the end of the queue
     * it tears down. `playing` is the song started, if any.
     */
    method PlayNext(guild: int, connected: bool, current: Option<Song>, messageId: int) returns (playing: Option<Song>)
      modifies this
      ensures !connected ==>
                && queues == ResetQueue(old(queues), guild)
                && loopStates == ResetLoop(old(loopStates), guild)
                && nowPlaying == old(nowPlaying) - {guild}
                && playing == None
      ensures connected ==>
                var sel := Select(old(GetQueue(guild)), old(IsLooping(guild)), current);
                && (sel.Replay? ==>
                      queues == old(queues) && loopStates == old(loopStates)
                      && nowPlaying == old(nowPlaying)[guild := messageId] && playing == Some(sel.song))
                && (sel.Next? ==>
                      queues == old(queues)[guild := sel.rest] && loopStates == old(loopStates)
                      && nowPlaying == old(nowPlaying)[guild := messageId] && playing == Some(sel.song))
                && (sel.End? ==>
                      queues == ResetQueue(old(queues), guild) && loopStates == ResetLoop(old(loopStates), guild)
                      && nowPlaying == old(nowPlaying) - {guild} && playing == None)
    {
      if !connected {
        Teardown(guild);
        return None;
      }
      nowPlaying := nowPlaying - {guild};
      var queue := GetQueue(guild);
      if IsLooping(guild) && current.Some? {
        playing := current;
      } else if queue != [] {
        playing := Some(queue[0]);
        queues := queues[guild := queue[1..]];
      } else {
        Teardown(guild);
        return None;
      }
      nowPlaying := nowPlaying[guild := messageId];
    }

    /** `stop`: with a voice client, the guild's queue becomes empty (created if missing). */
    method Stop(guild: int, hasVoiceClient: bool)
      modifies this
      ensures queues == if hasVoiceClient then old(queues)[guild := []] else old(queues)
      ensures loopStates == old(loopStates) && nowPlaying == old(nowPlaying)
    {
      if hasVoiceClient {
        queues := queues[guild := []];
      }
    }

    /** The loop of `play` over the search texts, appending each song found to the guild's queue. */
    method Enqueue(guild: int, queries: seq<string>, search: SearchOracle) returns (added: seq<Song>)
      requires guild in queues
      modifies this
      ensures added == Found(search, queries)
      ensures queues == old(queues)[guild := old(queues[guild]) + added]
      ensures loopStates == old(loopStates) && nowPlaying == old(nowPlaying)
    {
      ghost var q0 := queues;
      ghost var base := queues[guild];
      added := [];
      assert base + added == base;
      assert q0[guild := base] == q0;
      for i := 0 to |queries|
        invariant guild in queues && queues[guild] == base + added
        invariant added == Found(search, queries[..i])
        invariant queues == q0[guild := base + added]
        invariant loopStates == old(loopStates) && nowPlaying == old(nowPlaying)
      {
        var song, error := SearchSongOnYt(search, queries[i]);
        assert queries[..i + 1][..i] == queries[..i];
        if song.Some? {
          queues := queues[guild := queues[guild] + [song.value]];
          added := added + [song.value];
        }
      }
      assert queries[..|queries|] == queries;
    }

    /**
     * The state change of `play`. A user outside a voice channel changes
     * nothing. Otherwise the guild's queue is created if missing, even when
     * the Spotify lookup then fails; the songs found for the search texts are
     * appended in order, and `startNext` says whether `play_next` is called
     * (songs were added and the voice client is not `playing`).
     */
    method Play(guild: int, inVoice: bool, hasClient: bool, query: string, track: Option<TrackInfo>,
                playlist: Option<seq<Option<TrackInfo>>>, search: SearchOracle, playing: bool)
      returns (outcome: PlayOutcome, startNext: bool)
      modifies this
      ensures loopStates == old(loopStates) && nowPlaying == old(nowPlaying)
      ensures !inVoice ==> outcome == NotInVoice && !startNext && queues == old(queues)
      ensures inVoice ==>
                var c := Classify(hasClient, query, track, playlist);
                var base := old(GetQueue(guild));
                && (c.TrackFailed? ==> outcome == SpotifyTrackError && !startNext && queues == old(queues)[guild := base])
                && (c.PlaylistFailed? ==> outcome == SpotifyPlaylistError && !startNext && queues == old(queues)[guild := base])
                && (c.Search? ==>
                      var found := Found(search, c.queries);
                      && queues == old(queues)[guild := base + found]
                      && outcome == (if found == [] then NothingFound else Added(found))
                      && (startNext <==> found != [] && !playing))
    {
      if !inVoice {
        return NotInVoice, false;
      }
      if guild !in queues {
        queues := queues[guild := []];
      }
      var c := Classify(hasClient, query, track, playlist);
      if c.TrackFailed? {
        return SpotifyTrackError, false;
      }
      if c.PlaylistFailed? {
        return SpotifyPlaylistError, false;
      }
      var added := Enqueue(guild, c.queries, search);
      if added == [] {
        return NothingFound, false;
      }
      outcome := Added(added);
      startNext := !playing && queues[guild] != [];
    }
  }
}
