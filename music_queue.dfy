/**
 * The pure rules of the `Music` command group (main.py:490-673): what
 * `play_next` plays, what `teardown` resets, the loop toggle, CPython's
 * `random.shuffle` with its random draws given, and the text of `queue`.
 * Guild ids are the integer keys of `queues` and `loop_states`.
 */
module MusicQueue {
  import opened Wrappers
  import opened Text

  /** `{'url': ..., 'title': ..., 'thumbnail': ...}` as `search_song_on_yt` builds it. */
  datatype Song = Song(url: string, title: string, thumbnail: Option<string>)

  type Queues = map<int, seq<Song>>
  type LoopStates = map<int, bool>

  /** `get_queue`: the guild's queue, or an empty one. */
  function QueueOf(queues: Queues, guild: int): seq<Song> {
    if guild in queues then queues[guild] else []
  }

  /** `is_looping`: the guild's flag, off when unset. */
  predicate Looping(loops: LoopStates, guild: int) {
    guild in loops && loops[guild]
  }

  /** The flags after `toggle_loop`, which stores the negation of `is_looping`. */
  function Toggled(loops: LoopStates, guild: int): (r: LoopStates)
    ensures r.Keys == loops.Keys + {guild}
    ensures Looping(r, guild) <==> !Looping(loops, guild)
    ensures forall g :: g != guild ==> (g in r <==> g in loops) && (g in loops ==> r[g] == loops[g])
  {
    loops[guild := !Looping(loops, guild)]
  }

  /** Toggling twice restores the flag, and the whole map once the guild has a flag. */
  lemma ToggleTwice(loops: LoopStates, guild: int)
    ensures Looping(Toggled(Toggled(loops, guild), guild), guild) == Looping(loops, guild)
    ensures guild in loops ==> Toggled(Toggled(loops, guild), guild) == loops
  {
  }

  /** `teardown`'s reset: an existing queue becomes empty; a missing one stays missing. */
  function ResetQueue(queues: Queues, guild: int): (r: Queues)
    ensures r.Keys == queues.Keys
  {
    if guild in queues then queues[guild := []] else queues
  }

  /** `teardown`'s reset: an existing loop flag becomes false; a missing one stays missing. */
  function ResetLoop(loops: LoopStates, guild: int): (r: LoopStates)
    ensures r.Keys == loops.Keys
  {
    if guild in loops then loops[guild := false] else loops
  }

  /**
   * After a teardown the guild has an empty queue and no loop, no entry is
   * created, other guilds are untouched, and tearing down again changes nothing.
   */
  lemma TeardownSpec(queues: Queues, loops: LoopStates, guild: int)
    ensures QueueOf(ResetQueue(queues, guild), guild) == []
    ensures !Looping(ResetLoop(loops, guild), guild)
    ensures forall g :: g != guild ==> QueueOf(ResetQueue(queues, guild), g) == QueueOf(queues, g)
    ensures forall g :: g != guild ==> Looping(ResetLoop(loops, guild), g) == Looping(loops, g)
    ensures ResetQueue(ResetQueue(queues, guild), guild) == ResetQueue(queues, guild)
    ensures ResetLoop(ResetLoop(loops, guild), guild) == ResetLoop(loops, guild)
  {
  }

  /** What `play_next` does once the voice client is connected. */
  datatype Selection =
    | Replay(song: Song)                  // loop is on and a song is loaded: play it again
    | Next(song: Song, rest: seq<Song>)   // `queue.pop(0)`
    | End                                 // "Koniec kolejki": tear down

  /** The selection of `play_next`; `current` is the song of the voice client's source, if any. */
  function Select(queue: seq<Song>, looping: bool, current: Option<Song>): Selection {
    if looping && current.Some? then Replay(current.value)
    else if queue != [] then Next(queue[0], queue[1..])
    else End
  }

  /**
   * A looping guild with a loaded song replays it without touching the
   * queue; otherwise a non-empty queue yields its head and keeps its tail
   * in order; otherwise playback ends.
   */
  lemma SelectSpec(queue: seq<Song>, looping: bool, current: Option<Song>)
    ensures Select(queue, looping, current).Replay? <==> looping && current.Some?
    ensures Select(queue, looping, current).Replay? ==> Select(queue, looping, current).song == current.value
    ensures Select(queue, looping, current).Next? <==> !(looping && current.Some?) && queue != []
    ensures Select(queue, looping, current).Next? ==>
              [Select(queue, looping, current).song] + Select(queue, looping, current).rest == queue
    ensures Select(queue, looping, current) == End <==> !(looping && current.Some?) && queue == []
  {
  }

  /**
   * The draws of CPython's `random.shuffle` on a list of `n` items: for
   * position i = n-1 down to 1 it draws j in [0, i] (`draws[i - 1]`) and
   * swaps items i and j.
   */
  predicate ValidDraws(draws: seq<int>, n: nat) {
    && |draws| == (if n == 0 then 0 else n - 1)
    && forall k :: 0 <= k < |draws| ==> 0 <= draws[k] <= k + 1
  }

  function Swap(q: seq<Song>, i: nat, j: nat): (r: seq<Song>)
    requires i < |q| && j < |q|
    ensures |r| == |q|
  {
    q[i := q[j]][j := q[i]]
  }

  lemma SwapPermutes(q: seq<Song>, i: nat, j: nat)
    requires i < |q| && j < |q|
    ensures multiset(Swap(q, i, j)) == multiset(q)
  {
    var r1 := q[i := q[j]];
    assert multiset(r1) == multiset(q) - multiset{q[i]} + multiset{q[j]};
    assert multiset(r1[j := q[i]]) == multiset(r1) - multiset{r1[j]} + multiset{q[i]};
  }

  /** The shuffle's swaps for positions `i` down to 1. */
  function ShuffleDown(q: seq<Song>, draws: seq<int>, i: nat): (r: seq<Song>)
    requires i < |q| || i == 0
    requires ValidDraws(draws, |q|)
    ensures |r| == |q|
    decreases i
  {
    if i == 0 then q else ShuffleDown(Swap(q, i, draws[i - 1]), draws, i - 1)
  }

  /** `random.shuffle(q)` with the draws `draws`. */
  function Shuffled(q: seq<Song>, draws: seq<int>): seq<Song>
    requires ValidDraws(draws, |q|)
  {
    if q == [] then [] else ShuffleDown(q, draws, |q| - 1)
  }

  lemma {:induction false} ShuffleDownPermutes(q: seq<Song>, draws: seq<int>, i: nat)
    requires i < |q| || i == 0
    requires ValidDraws(draws, |q|)
    ensures multiset(ShuffleDown(q, draws, i)) == multiset(q)
    decreases i
  {
    if i > 0 {
      SwapPermutes(q, i, draws[i - 1]);
      ShuffleDownPermutes(Swap(q, i, draws[i - 1]), draws, i - 1);
    }
  }

  /** A shuffle keeps exactly the same songs, each as often as before. */
  lemma ShuffledPermutes(q: seq<Song>, draws: seq<int>)
    requires ValidDraws(draws, |q|)
    ensures |Shuffled(q, draws)| == |q|
    ensures multiset(Shuffled(q, draws)) == multiset(q)
  {
    if q != [] {
      ShuffleDownPermutes(q, draws, |q| - 1);
    }
  }

  /** The loop of `random.shuffle`, swapping in place from the last position down. */
  method Shuffle(q: seq<Song>, draws: seq<int>) returns (r: seq<Song>)
    requires ValidDraws(draws, |q|)
    ensures r == Shuffled(q, draws)
    ensures multiset(r) == multiset(q)
  {
    r := q;
    if |q| == 0 {
      return;
    }
    var i := |q| - 1;
    while i > 0
      invariant 0 <= i < |q| && |r| == |q|
      invariant ValidDraws(draws, |r|)
      invariant ShuffleDown(r, draws, i) == Shuffled(q, draws)
      invariant multiset(r) == multiset(q)
    {
      var j := draws[i - 1];
      SwapPermutes(r, i, j);
      r := r[i := r[j]][j := r[i]];
      i := i - 1;
    }
  }

  /** How many queued songs `queue` lists by name. */
  const ShownSongs: nat := 15

  /** One line of the listing: `f"**{i}.** {song['title']}\n"`. */
  function EntryLine(number: nat, s: Song): string {
    "**" + NatToString(number) + ".** " + s.title + "\n"
  }

  /** The lines for `songs`, numbered from `first` (`enumerate(..., 1)`). */
  function EntryLines(songs: seq<Song>, first: nat): (lines: seq<string>)
    ensures |lines| == |songs|
  {
    if songs == [] then [] else [EntryLine(first, songs[0])] + EntryLines(songs[1..], first + 1)
  }

  lemma {:induction false} EntryLinesNumbered(songs: seq<Song>, first: nat)
    ensures forall k :: 0 <= k < |songs| ==> EntryLines(songs, first)[k] == EntryLine(first + k, songs[k])
  {
    if songs != [] {
      EntryLinesNumbered(songs[1..], first + 1);
      forall k | 1 <= k < |songs|
        ensures EntryLines(songs, first)[k] == EntryLine(first + k, songs[k])
      {
        assert EntryLines(songs, first)[k] == EntryLines(songs[1..], first + 1)[k - 1];
      }
    }
  }

  function Concat(lines: seq<string>): string {
    if lines == [] then "" else lines[0] + Concat(lines[1..])
  }

  /** The listed lines and the number of songs only counted: the content of the `queue` reply. */
  datatype Listing = Listing(lines: seq<string>, more: nat)

  function QueueListing(queue: seq<Song>): Listing {
    var shown := if |queue| < ShownSongs then |queue| else ShownSongs;
    Listing(EntryLines(queue[..shown], 1), |queue| - shown)
  }

  /**
   * The listing names the first fifteen songs in queue order, numbered from
   * 1, and counts the rest: every queued song is either named or counted,
   * and the count is non-zero exactly when more than fifteen are queued.
   */
  lemma QueueListingSpec(queue: seq<Song>)
    ensures |QueueListing(queue).lines| == if |queue| < ShownSongs then |queue| else ShownSongs
    ensures forall k :: 0 <= k < |QueueListing(queue).lines| ==>
              QueueListing(queue).lines[k] == EntryLine(k + 1, queue[k])
    ensures |QueueListing(queue).lines| + QueueListing(queue).more == |queue|
    ensures QueueListing(queue).more > 0 <==> |queue| > ShownSongs
  {
    var shown := if |queue| < ShownSongs then |queue| else ShownSongs;
    EntryLinesNumbered(queue[..shown], 1);
  }

  /** The embed description of `queue`; `current` is the song of the voice client's source, if any. */
  function QueueDescription(current: Option<Song>, queue: seq<Song>): string {
    var header := match current
      case Some(s) => "**Teraz gram:** [" + s.title + "](" + s.url + ")\n\n"
      case None => "";
    var listing := QueueListing(queue);
    header +
    if queue == [] then "Kolejka jest pusta."
    else "**W kolejce:**\n" + Concat(listing.lines) +
         (if listing.more > 0 then "\n... i " + NatToString(listing.more) + " więcej." else "")
  }
}
