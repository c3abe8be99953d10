/**
  * The play-count store and the per-guild playback state of the Python bot
  * (core/music_state.py): tracks, the persistent insertion-ordered play-count
  * dictionary, track identity, and the stable sort of a guild's queue by play count.
  */
module MusicState {
  import opened Wrappers
  import opened Text
  import opened Ranking

  datatype Track = Track(
    title: string,
    streamUrl: string,
    pageUrl: string,
    artist: string,
    duration: int,
    imageUrl: Option<string>,
    requestChannelId: Option<int>,
    requestMessageId: Option<int>,
    playCount: int)

  /**
    * An entry of a guild's queue. Besides tracks, the 24/7 auto-fill of
    * cogs/music/twentyfourseven.py appends the bare track-id strings returned by
    * `get_most_played_tracks`; Python lets them into the deque unchecked.
    */
  datatype QueueEntry = Queued(track: Track) | BareId(id: string)

  /** `get_track_id`: the text after the last "/" of the page URL, or the title when there is no "/". */
  function TrackId(t: Track): (id: string)
    ensures '/' in t.pageUrl ==>
      && '/' !in id
      && |id| < |t.pageUrl|
      && t.pageUrl == t.pageUrl[..|t.pageUrl| - |id| - 1] + "/" + id
    ensures '/' !in t.pageUrl ==> id == t.title
  {
    if '/' in t.pageUrl then
      var u := t.pageUrl;
      LastSegmentIsTail(u, '/');
      var seg := LastSegment(u, '/');
      assert u == u[..|u| - |seg| - 1] + [u[|u| - |seg| - 1]] + u[|u| - |seg|..];
      seg
    else t.title
  }

  /** The play-count dictionary: its keys in insertion order, and the count stored for each. */
  datatype Table = Table(keys: seq<string>, counts: map<string, int>)

  /** Keys are listed once each, and exactly the listed keys have a count. */
  ghost predicate WellFormed(t: Table) {
    && (forall i, j :: 0 <= i < j < |t.keys| ==> t.keys[i] != t.keys[j])
    && (forall k :: k in t.counts <==> k in t.keys)
  }

  const EmptyTable: Table := Table([], map[])

  /** `dict.get(id, 0)`. */
  function Count(t: Table, id: string): int {
    if id in t.counts then t.counts[id] else 0
  }

  /** `d[k] = v` on an insertion-ordered dict: an existing key keeps its place, a new key goes last. */
  function Put(t: Table, k: string, v: int): (r: Table)
    requires WellFormed(t)
    ensures WellFormed(r)
    ensures Count(r, k) == v
    ensures forall j :: j != k ==> Count(r, j) == Count(t, j)
    ensures k in t.keys ==> r.keys == t.keys
    ensures k !in t.keys ==> r.keys == t.keys + [k]
  {
    Table(if k in t.counts then t.keys else t.keys + [k], t.counts[k := v])
  }

  /** The table after `increment(id)`: one more play of `id`, nothing else changes, nothing goes down. */
  function Incremented(t: Table, id: string): (r: Table)
    requires WellFormed(t)
    ensures WellFormed(r)
    ensures Count(r, id) == Count(t, id) + 1
    ensures forall j :: j != id ==> Count(r, j) == Count(t, j)
    ensures forall j :: Count(r, j) >= Count(t, j)
    ensures forall j :: j in t.keys ==> j in r.keys
  {
    Put(t, id, Count(t, id) + 1)
  }

  /** What `_load` finds at data/play_counts.json. */
  datatype StoredCounts = NoFile | Unreadable | Stored(table: Table)

  /** `_load`: the stored dictionary, or an empty one when the file is missing or cannot be decoded. */
  function Loaded(stored: StoredCounts): (t: Table)
    requires stored.Stored? ==> WellFormed(stored.table)
    ensures WellFormed(t)
    ensures !stored.Stored? ==> forall id :: Count(t, id) == 0
    ensures stored.Stored? ==> forall id :: Count(t, id) == Count(stored.table, id)
  {
    if stored.Stored? then stored.table else EmptyTable
  }

  /** `dict.items()`, in insertion order. */
  function Items(t: Table): (items: seq<(string, int)>)
    ensures |items| == |t.keys|
    ensures forall i :: 0 <= i < |items| ==> items[i] == (t.keys[i], Count(t, t.keys[i]))
  {
    seq(|t.keys|, i requires 0 <= i < |t.keys| => (t.keys[i], Count(t, t.keys[i])))
  }

  function Second(p: (string, int)): int { p.1 }

  /** Python's `s[:n]`: a negative `n` counts from the end. */
  function PyPrefix<T>(s: seq<T>, n: int): (r: seq<T>)
    ensures |r| <= |s| && r == s[..|r|]
    ensures n >= 0 ==> |r| == Min(n, |s|)
    ensures n < 0 ==> |r| == Max(0, |s| + n)
  {
    if n >= 0 then s[..Min(n, |s|)] else s[..Max(0, |s| + n)]
  }

  /** `get_all_sorted(limit)`: the items sorted stably by count, highest first, cut at `limit`. */
  function SortedItems(t: Table, limit: int): seq<(string, int)> {
    PyPrefix(SortDesc(Items(t), Second), limit)
  }

  ghost predicate IsPrefix<T>(a: seq<T>, b: seq<T>) {
    |a| <= |b| && a == b[..|a|]
  }

  lemma {:induction false} WithKeyOfPrefix<T>(s: seq<T>, n: nat, key: T -> int, c: int)
    requires n <= |s|
    ensures IsPrefix(WithKey(s[..n], key, c), WithKey(s, key, c))
    decreases n
  {
    if n > 0 {
      WithKeyOfPrefix(s[1..], n - 1, key, c);
      assert s[..n][1..] == s[1..][..n - 1];
    } else {
      assert s[..n] == [];
    }
  }

  /** Every pair of the sorted items is a key of the table with its count. */
  lemma SortedPairsAreEntries(t: Table)
    ensures var s := SortDesc(Items(t), Second);
      forall i :: 0 <= i < |s| ==> s[i].0 in t.keys && s[i].1 == Count(t, s[i].0)
  {
    var items := Items(t);
    var s := SortDesc(items, Second);
    SortDescSorts(items, Second);
    forall i | 0 <= i < |s|
      ensures s[i].0 in t.keys && s[i].1 == Count(t, s[i].0)
    {
      assert s[i] in multiset(items);
    }
  }

  /**
    * `get_all_sorted(limit)` returns at most `limit` pairs, each a key of the table with its
    * count, highest count first.
    */
  lemma SortedItemsSpec(t: Table, limit: int)
    ensures var r := SortedItems(t, limit);
      && |r| <= |t.keys|
      && (limit >= 0 ==> |r| == Min(limit, |t.keys|))
      && (forall i :: 0 <= i < |r| ==> r[i].0 in t.keys && r[i].1 == Count(t, r[i].0))
      && NonIncreasing(r, Second)
  {
    var s := SortDesc(Items(t), Second);
    SortDescSorts(Items(t), Second);
    SortedPairsAreEntries(t);
    var r := SortedItems(t, limit);
    assert forall i :: 0 <= i < |r| ==> r[i] == s[i];
  }

  /** No key that `get_all_sorted(limit)` leaves out has a higher count than one it returns. */
  lemma SortedItemsAreTop(t: Table, limit: int)
    ensures var r := SortedItems(t, limit);
      forall i, k :: 0 <= i < |r| && k in t.keys && (forall j :: 0 <= j < |r| ==> r[j].0 != k)
        ==> Count(t, k) <= r[i].1
  {
    var items := Items(t);
    var s := SortDesc(items, Second);
    var r := SortedItems(t, limit);
    SortDescSorts(items, Second);
    forall i, k | 0 <= i < |r| && k in t.keys && (forall j :: 0 <= j < |r| ==> r[j].0 != k)
      ensures Count(t, k) <= r[i].1
    {
      var p :| 0 <= p < |t.keys| && t.keys[p] == k;
      assert items[p] in multiset(s);
      var m :| 0 <= m < |s| && s[m] == items[p];
      assert s[m].0 == k;
      assert r == s[..|r|];
      assert forall j :: 0 <= j < |r| ==> s[j] == r[j];
      assert m >= |r|;
      assert s[i] == r[i];
      assert Second(s[i]) >= Second(s[m]);
    }
  }

  /** Keys with equal counts come out of `get_all_sorted(limit)` in the order of the table. */
  lemma SortedItemsKeepTableOrder(t: Table, limit: int)
    ensures var r := SortedItems(t, limit);
      forall c :: IsPrefix(WithKey(r, Second, c), WithKey(Items(t), Second, c))
  {
    var items := Items(t);
    var s := SortDesc(items, Second);
    var r := SortedItems(t, limit);
    SortDescIsStableSort(items, Second);
    forall c
      ensures IsPrefix(WithKey(r, Second, c), WithKey(items, Second, c))
    {
      WithKeyOfPrefix(s, |r|, Second, c);
    }
  }

  /** `get_top_track_ids(limit)`: the keys of `get_all_sorted(limit)`, in the same order. */
  function TopIds(t: Table, limit: int): (ids: seq<string>)
    ensures |ids| <= |t.keys|
    ensures forall i :: 0 <= i < |ids| ==> ids[i] in t.keys
    ensures forall i, j :: 0 <= i < j < |ids| ==> Count(t, ids[i]) >= Count(t, ids[j])
  {
    var r := SortedItems(t, limit);
    SortedItemsSpec(t, limit);
    seq(|r|, i requires 0 <= i < |r| => r[i].0)
  }

  /** The play count `sort_queue_by_play_count` sorts by (bare ids never get this far). */
  function EntryCount(t: Table, e: QueueEntry): int {
    match e
    case Queued(track) => Count(t, TrackId(track))
    case BareId(_) => 0
  }

  function PlayCountKey(t: Table): QueueEntry -> int {
    e => EntryCount(t, e)
  }

  predicate AllTracks(q: seq<QueueEntry>) {
    forall i :: 0 <= i < |q| ==> q[i].Queued?
  }

  /** The queue that `sort_queue_by_play_count` leaves behind: a stable sort, most played first. */
  function SortedByPlayCount(q: seq<QueueEntry>, t: Table): seq<QueueEntry> {
    SortDesc(q, PlayCountKey(t))
  }

  /**
    * Sorting the queue by play count reorders it without losing or adding entries, puts
    * higher counts first, keeps entries with equal counts in their queue order, and a
    * second sort changes nothing.
    */
  lemma SortedByPlayCountSpec(q: seq<QueueEntry>, t: Table)
    ensures var r := SortedByPlayCount(q, t);
      && multiset(r) == multiset(q)
      && (forall i, j :: 0 <= i < j < |r| ==> EntryCount(t, r[i]) >= EntryCount(t, r[j]))
      && (forall c :: WithKey(r, PlayCountKey(t), c) == WithKey(q, PlayCountKey(t), c))
      && SortedByPlayCount(r, t) == r
  {
    SortDescIsStableSort(q, PlayCountKey(t));
    SortDescIdempotent(q, PlayCountKey(t));
    var r := SortedByPlayCount(q, t);
    assert forall i, j :: 0 <= i < j < |r| ==> PlayCountKey(t)(r[i]) >= PlayCountKey(t)(r[j]);
  }

  /** The whole of one guild's state, as a value. */
  datatype WorkerTask = WorkerTask(done: bool)

  datatype GuildView = GuildView(
    queue: seq<QueueEntry>,
    nowPlaying: Option<Track>,
    workerTask: Option<WorkerTask>,
    textChannelId: Option<int>,
    nowPlayingChannelId: Option<int>,
    nowPlayingMessageId: Option<int>,
    mode247: bool,
    voiceChannelId: Option<int>)

  const InitialView: GuildView := GuildView([], None, None, None, None, None, false, None)

  /**
    * `PlayCountManager`: Python makes it a process-wide singleton whose dictionary lives in a
    * class variable; here it is one object that every guild state shares.
    */
  class PlayCountManager {
    var table: Table
    /** The dictionary as last written to data/play_counts.json, if any write happened. */
    var saved: Option<Table>

    ghost predicate Valid()
      reads this
    {
      WellFormed(table)
    }

    /** The first instantiation, which runs `_load`. */
    constructor Load(stored: StoredCounts)
      requires stored.Stored? ==> WellFormed(stored.table)
      ensures Valid()
      ensures table == Loaded(stored) && saved == None
    {
      table := Loaded(stored);
      saved := None;
    }

    /** `increment`: bump one count, save the whole dictionary, return the new count. */
    method Increment(id: string) returns (n: int)
      requires Valid()
      modifies this
      ensures Valid()
      ensures table == Incremented(old(table), id)
      ensures n == Count(table, id) == Count(old(table), id) + 1
      ensures saved == Some(table)
    {
      table := Put(table, id, Count(table, id) + 1);
      saved := Some(table);
      n := Count(table, id);
    }

    function Get(id: string): int
      reads this
    {
      Count(table, id)
    }

    function GetAllSorted(limit: int): seq<(string, int)>
      reads this
    {
      SortedItems(table, limit)
    }

    function GetTopTrackIds(limit: int): seq<string>
      reads this
    {
      TopIds(table, limit)
    }
  }

  class GuildMusicState {
    var queue: seq<QueueEntry>
    var nowPlaying: Option<Track>
    var workerTask: Option<WorkerTask>
    var textChannelId: Option<int>
    var nowPlayingChannelId: Option<int>
    var nowPlayingMessageId: Option<int>
    var mode247: bool
    var voiceChannelId: Option<int>
    const playCounts: PlayCountManager

    function View(): GuildView
      reads this
    {
      GuildView(queue, nowPlaying, workerTask, textChannelId, nowPlayingChannelId,
        nowPlayingMessageId, mode247, voiceChannelId)
    }

    constructor (playCounts: PlayCountManager)
      ensures View() == InitialView
      ensures this.playCounts == playCounts
    {
      queue := [];
      nowPlaying := None;
      workerTask := None;
      textChannelId := None;
      nowPlayingChannelId := None;
      nowPlayingMessageId := None;
      mode247 := false;
      voiceChannelId := None;
      this.playCounts := playCounts;
    }

    /** `record_play`: increments exactly the key `get_track_id(track)`. */
    method RecordPlay(track: Track) returns (n: int)
      requires playCounts.Valid()
      modifies playCounts
      ensures playCounts.Valid()
      ensures playCounts.table == Incremented(old(playCounts.table), TrackId(track))
      ensures n == GetPlayCount(track) == old(GetPlayCount(track)) + 1
      ensures playCounts.saved == Some(playCounts.table)
    {
      n := playCounts.Increment(TrackId(track));
    }

    function GetPlayCount(track: Track): int
      reads this, playCounts
    {
      playCounts.Get(TrackId(track))
    }

    /** `get_most_played_tracks`: despite its name, the top track ids, not tracks. */
    function GetMostPlayedTracks(limit: int): seq<string>
      reads this, playCounts
    {
      playCounts.GetTopTrackIds(limit)
    }

    /**
      * `sort_queue_by_play_count`. Looking up the count of a bare id string raises
      * AttributeError before the queue is touched, which `ok == false` reports.
      */
    method SortQueueByPlayCount() returns (ok: bool)
      modifies this
      ensures ok <==> AllTracks(old(queue))
      ensures queue == (if ok then SortedByPlayCount(old(queue), playCounts.table) else old(queue))
      ensures View() == old(View()).(queue := queue)
    {
      if !AllTracks(queue) {
        return false;
      }
      var sorted := SortedByPlayCount(queue, playCounts.table);
      var refilled: seq<QueueEntry> := [];
      var i := 0;
      while i < |sorted|
        invariant 0 <= i <= |sorted|
        invariant refilled == sorted[..i]
      {
        refilled := refilled + [sorted[i]];
        i := i + 1;
      }
      queue := refilled;
      ok := true;
    }
  }
}
