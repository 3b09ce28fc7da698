/**
 * How `play` turns its query into songs (main.py:555-603): a Spotify link
 * becomes "title artist" search texts through the Spotify client, anything
 * else is searched as typed, and each text is looked up on YouTube with the
 * suffixes "", " lyrics" and " audio" until one search finds a song. Spotify
 * and YouTube are oracles passed in as parameters.
 */
module MusicSearch {
  import opened Wrappers
  import opened Text
  import opened MusicQueue

  /** A Spotify track as the client returns it: its name and its artists' names. */
  datatype TrackInfo = TrackInfo(name: string, artists: seq<string>)

  /**
   * `f"{track['name']} {track['artists'][0]['name']}"`, or `None` where
   * indexing the empty artist list raises.
   */
  function TrackQuery(t: TrackInfo): (q: Option<string>)
    ensures q.None? <==> t.artists == []
  {
    if t.artists == [] then None else Some(t.name + " " + t.artists[0])
  }

  /** The tracks of a playlist page, skipping the falsy items and items without a track (`None`). */
  function PresentTracks(items: seq<Option<TrackInfo>>): (ts: seq<TrackInfo>)
    ensures |ts| <= |items|
  {
    if items == [] then []
    else (if items[0].Some? then [items[0].value] else []) + PresentTracks(items[1..])
  }

  /** The list comprehension over the playlist: `None` where it raises for a track without artists. */
  function PlaylistQueries(items: seq<Option<TrackInfo>>): Option<seq<string>> {
    if items == [] then Some([])
    else
      match PlaylistQueries(items[1..])
      case None => None
      case Some(rest) =>
        match items[0]
        case None => Some(rest)
        case Some(t) => if t.artists == [] then None else Some([t.name + " " + t.artists[0]] + rest)
  }

  /**
   * The playlist gives one search text per present track, in playlist order,
   * unless some present track has no artists, which makes the whole
   * playlist fail.
   */
  lemma {:induction false} PlaylistQueriesSpec(items: seq<Option<TrackInfo>>)
    ensures PlaylistQueries(items).None? <==>
              exists i :: 0 <= i < |items| && items[i].Some? && items[i].value.artists == []
    ensures PlaylistQueries(items).Some? ==>
              var qs, ts := PlaylistQueries(items).value, PresentTracks(items);
              && |qs| == |ts|
              && forall k :: 0 <= k < |qs| ==> TrackQuery(ts[k]) == Some(qs[k])
  {
    if items != [] {
      PlaylistQueriesSpec(items[1..]);
      if PlaylistQueries(items[1..]).None? {
        var i :| 0 <= i < |items[1..]| && items[1..][i].Some? && items[1..][i].value.artists == [];
        assert items[i + 1] == items[1..][i];
      }
    }
  }

  /** The search texts for a query, or the Spotify error `play` replies with. */
  datatype Classified = Search(queries: seq<string>) | TrackFailed | PlaylistFailed

  /**
   * The classification of `play`'s query. `hasClient` says whether the
   * Spotify client was created; `track` and `playlist` are the client's
   * answers for this query, `None` where the call raises.
   */
  function Classify(hasClient: bool, query: string, track: Option<TrackInfo>,
                    playlist: Option<seq<Option<TrackInfo>>>): Classified
  {
    if hasClient && Contains(query, "open.spotify.com") then
      if Contains(query, "track") then
        match track
        case None => TrackFailed
        case Some(t) => (match TrackQuery(t) case Some(q) => Search([q]) case None => TrackFailed)
      else if Contains(query, "playlist") then
        match playlist
        case None => PlaylistFailed
        case Some(items) => (match PlaylistQueries(items) case Some(qs) => Search(qs) case None => PlaylistFailed)
      else Search([])
    else Search([query])
  }

  /**
   * Without a client or outside Spotify the query is searched as typed; a
   * track link gives exactly one search text or fails; a playlist link
   * gives at most one text per item or fails; any other Spotify link gives
   * no search at all.
   */
  lemma ClassifySpec(hasClient: bool, query: string, track: Option<TrackInfo>,
                     playlist: Option<seq<Option<TrackInfo>>>)
    ensures !(hasClient && Contains(query, "open.spotify.com")) ==>
              Classify(hasClient, query, track, playlist) == Search([query])
    ensures hasClient && Contains(query, "open.spotify.com") && Contains(query, "track") ==>
              && !Classify(hasClient, query, track, playlist).PlaylistFailed?
              && (Classify(hasClient, query, track, playlist).TrackFailed? <==> track.None? || track.value.artists == [])
              && (Classify(hasClient, query, track, playlist).Search? ==>
                    Classify(hasClient, query, track, playlist).queries == [track.value.name + " " + track.value.artists[0]])
    ensures hasClient && Contains(query, "open.spotify.com") && !Contains(query, "track") && Contains(query, "playlist") ==>
              && !Classify(hasClient, query, track, playlist).TrackFailed?
              && (Classify(hasClient, query, track, playlist).PlaylistFailed? <==>
                    playlist.None? || exists i :: 0 <= i < |playlist.value| && playlist.value[i].Some? && playlist.value[i].value.artists == [])
              && (Classify(hasClient, query, track, playlist).Search? ==>
                    |Classify(hasClient, query, track, playlist).queries| == |PresentTracks(playlist.value)| <= |playlist.value|)
    ensures hasClient && Contains(query, "open.spotify.com") && !Contains(query, "track") && !Contains(query, "playlist") ==>
              Classify(hasClient, query, track, playlist) == Search([])
  {
    if playlist.Some? {
      PlaylistQueriesSpec(playlist.value);
    }
  }

  /** The YouTube search: the first entry for a search text, `None` when the search raises or finds nothing. */
  type SearchOracle = string -> Option<Song>

  const SearchSuffixes: seq<string> := ["", " lyrics", " audio"]

  function SearchText(query: string, suffix: string): string {
    "ytsearch1:" + query + suffix
  }

  /** The first hit among the searches for `query` with each suffix in turn. */
  function FirstHit(search: SearchOracle, query: string, suffixes: seq<string>): Option<Song> {
    if suffixes == [] then None
    else
      match search(SearchText(query, suffixes[0]))
      case Some(s) => Some(s)
      case None => FirstHit(search, query, suffixes[1..])
  }

  /** The song `search_song_on_yt` finds for `query`. */
  function FindSong(search: SearchOracle, query: string): Option<Song> {
    FirstHit(search, query, SearchSuffixes)
  }

  lemma {:induction false} FirstHitSpec(search: SearchOracle, query: string, suffixes: seq<string>)
    ensures FirstHit(search, query, suffixes).None? <==>
              forall k :: 0 <= k < |suffixes| ==> search(SearchText(query, suffixes[k])).None?
    ensures FirstHit(search, query, suffixes).Some? ==>
              exists k :: 0 <= k < |suffixes| && search(SearchText(query, suffixes[k])) == FirstHit(search, query, suffixes)
                && forall m :: 0 <= m < k ==> search(SearchText(query, suffixes[m])).None?
  {
    if suffixes != [] {
      FirstHitSpec(search, query, suffixes[1..]);
      if search(SearchText(query, suffixes[0])).None? {
        if FirstHit(search, query, suffixes).Some? {
          var k :| 0 <= k < |suffixes[1..]| && search(SearchText(query, suffixes[1..][k])) == FirstHit(search, query, suffixes[1..])
                   && forall m :: 0 <= m < k ==> search(SearchText(query, suffixes[1..][m])).None?;
          assert suffixes[k + 1] == suffixes[1..][k];
          forall m | 0 <= m < k + 1
            ensures search(SearchText(query, suffixes[m])).None?
          {
            if m > 0 {
              assert suffixes[m] == suffixes[1..][m - 1];
            }
          }
        } else {
          forall k | 0 <= k < |suffixes|
            ensures search(SearchText(query, suffixes[k])).None?
          {
            if k > 0 {
              assert suffixes[k] == suffixes[1..][k - 1];
            }
          }
        }
      }
    }
  }

  /**
   * The song found is the first hit of the searches for the query, the query
   * with " lyrics" and the query with " audio", in that order; there is none
   * exactly when all three fail.
   */
  lemma FindSongSpec(search: SearchOracle, query: string)
    ensures FindSong(search, query).None? <==>
              && search(SearchText(query, "")).None?
              && search(SearchText(query, " lyrics")).None?
              && search(SearchText(query, " audio")).None?
    ensures search(SearchText(query, "")).Some? ==> FindSong(search, query) == search(SearchText(query, ""))
    ensures search(SearchText(query, "")).None? && search(SearchText(query, " lyrics")).Some? ==>
              FindSong(search, query) == search(SearchText(query, " lyrics"))
    ensures search(SearchText(query, "")).None? && search(SearchText(query, " lyrics")).None? ==>
              FindSong(search, query) == search(SearchText(query, " audio"))
  {
    FirstHitSpec(search, query, SearchSuffixes);
    assert SearchSuffixes[0] == "" && SearchSuffixes[1] == " lyrics" && SearchSuffixes[2] == " audio";
    assert SearchSuffixes[1..] == [" lyrics", " audio"] && SearchSuffixes[2..] == [" audio"];
  }

  /** The error text of `search_song_on_yt` when nothing is found. */
  function NotFoundMessage(query: string): string {
    "Nie udało mi się znaleźć grywalnej wersji dla: `" + query + "`."
  }

  /** `search_song_on_yt`: the loop over the suffixes, returning the first song found or the error. */
  method SearchSongOnYt(search: SearchOracle, query: string) returns (song: Option<Song>, error: Option<string>)
    ensures song == FindSong(search, query)
    ensures song.Some? <==> error.None?
    ensures error.Some? ==> error.value == NotFoundMessage(query)
  {
    var i := 0;
    while i < |SearchSuffixes|
      invariant 0 <= i <= |SearchSuffixes|
      invariant FindSong(search, query) == FirstHit(search, query, SearchSuffixes[i..])
    {
      var hit := search(SearchText(query, SearchSuffixes[i]));
      if hit.Some? {
        return hit, None;
      }
      assert SearchSuffixes[i..][1..] == SearchSuffixes[i + 1..];
      i := i + 1;
    }
    return None, Some(NotFoundMessage(query));
  }

  /** The songs found for the search texts, in order, skipping the texts nothing was found for. */
  function Found(search: SearchOracle, queries: seq<string>): (songs: seq<Song>)
    ensures |songs| <= |queries|
  {
    if queries == [] then []
    else
      var last := FindSong(search, queries[|queries| - 1]);
      Found(search, queries[..|queries| - 1]) + (if last.Some? then [last.value] else [])
  }

  /**
   * Every song found belongs to some search text, and nothing is found
   * exactly when every search fails.
   */
  lemma {:induction false} FoundSpec(search: SearchOracle, queries: seq<string>)
    ensures Found(search, queries) == [] <==> forall i :: 0 <= i < |queries| ==> FindSong(search, queries[i]).None?
    ensures forall k :: 0 <= k < |Found(search, queries)| ==>
              exists i :: 0 <= i < |queries| && FindSong(search, queries[i]) == Some(Found(search, queries)[k])
  {
    if queries != [] {
      var pre := queries[..|queries| - 1];
      FoundSpec(search, pre);
      var songs := Found(search, queries);
      forall k | 0 <= k < |songs|
        ensures exists i :: 0 <= i < |queries| && FindSong(search, queries[i]) == Some(songs[k])
      {
        if k < |Found(search, pre)| {
          var i :| 0 <= i < |pre| && FindSong(search, pre[i]) == Some(Found(search, pre)[k]);
          assert queries[i] == pre[i];
        } else {
          assert FindSong(search, queries[|queries| - 1]) == Some(songs[k]);
        }
      }
      if songs == [] {
        forall i | 0 <= i < |queries|
          ensures FindSong(search, queries[i]).None?
        {
          if i < |pre| {
            assert queries[i] == pre[i];
          }
        }
      }
    }
  }

  /** The positions of the search texts a song was found for, in increasing order. */
  function HitIndices(search: SearchOracle, queries: seq<string>): seq<nat> {
    if queries == [] then []
    else
      var last := |queries| - 1;
      HitIndices(search, queries[..last]) + (if FindSong(search, queries[last]).Some? then [last] else [])
  }

  /**
   * The songs appended are, in order, the songs of the search texts that
   * found one, in the order of those texts: the k-th song belongs to the
   * k-th such text, the texts' positions strictly increase, and a text is
   * skipped exactly when its search found nothing.
   */
  lemma {:induction false} FoundInOrder(search: SearchOracle, queries: seq<string>)
    ensures |HitIndices(search, queries)| == |Found(search, queries)|
    ensures forall k :: 0 <= k < |HitIndices(search, queries)| ==>
              && HitIndices(search, queries)[k] < |queries|
              && FindSong(search, queries[HitIndices(search, queries)[k]]) == Some(Found(search, queries)[k])
    ensures forall k, l :: 0 <= k < l < |HitIndices(search, queries)| ==>
              HitIndices(search, queries)[k] < HitIndices(search, queries)[l]
    ensures forall i :: 0 <= i < |queries| ==> (FindSong(search, queries[i]).Some? <==> i in HitIndices(search, queries))
  {
    if queries != [] {
      var last := |queries| - 1;
      var pre := queries[..last];
      FoundInOrder(search, pre);
      var idx, songs := HitIndices(search, queries), Found(search, queries);
      var idx0, songs0 := HitIndices(search, pre), Found(search, pre);
      forall k | 0 <= k < |idx|
        ensures idx[k] < |queries| && FindSong(search, queries[idx[k]]) == Some(songs[k])
      {
        if k < |idx0| {
          assert idx[k] == idx0[k] && songs[k] == songs0[k];
          assert queries[idx0[k]] == pre[idx0[k]];
        }
      }
      forall i | 0 <= i < |queries|
        ensures FindSong(search, queries[i]).Some? <==> i in idx
      {
        if i < last {
          assert queries[i] == pre[i];
          assert i in idx0 ==> i in idx;
          assert forall m :: 0 <= m < |idx0| ==> idx0[m] < last;
        }
      }
    }
  }
}
