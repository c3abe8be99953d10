/**
  * The playback side of the TypeScript port (src/music/play.ts): choosing the song a search
  * returns, enqueueing it, the Idle handler that moves to the next track or tears down, and
  * the controls of a playing track with their pause bookkeeping. The clock is a parameter.
  */
module TsPlay {
  import opened Wrappers
  import opened Text
  import Ranking
  import opened Stay247
  import opened PlayerState

  // ---------------------------------------------------------------------------
  // Elapsed time and pause accounting
  // ---------------------------------------------------------------------------

  /** The three variables of a playing track's closure: start time, pause start, paused total (ms). */
  datatype Clock = Clock(startedAt: int, pausedAt: Option<int>, pausedMs: int)

  /**
    * `getElapsedSeconds()`: whole seconds since the start minus the paused time, read at the
    * pause start while paused, and clamped to [0, duration] (`track.duration || 0` is the
    * duration itself for an integer duration).
    */
  function ElapsedSeconds(c: Clock, duration: int, now: int): int {
    var at := if c.pausedAt.Some? then c.pausedAt.value else now;
    var elapsed := (at - c.startedAt - c.pausedMs) / 1000;
    Max(0, Min(duration, elapsed))
  }

  /** Pressing pause: the pause starts now. */
  function Paused(c: Clock, now: int): Clock {
    c.(pausedAt := Some(now))
  }

  /**
    * Pressing resume: a recorded pause start (a JavaScript truthy one, so not 0) adds the
    * pause's length to the paused total and is cleared.
    */
  function Resumed(c: Clock, now: int): Clock {
    if c.pausedAt.Some? && c.pausedAt.value != 0 then
      c.(pausedMs := c.pausedMs + (now - c.pausedAt.value), pausedAt := None)
    else c
  }

  /** The elapsed time always lies between 0 and the duration (0 for a non-positive duration). */
  lemma ElapsedInRange(c: Clock, duration: int, now: int)
    ensures 0 <= ElapsedSeconds(c, duration, now) <= Max(0, duration)
    ensures duration >= 0 ==> ElapsedSeconds(c, duration, now) <= duration
  {
  }

  /** While paused the elapsed time does not move. */
  lemma ElapsedFrozenWhilePaused(c: Clock, duration: int, now1: int, now2: int)
    requires c.pausedAt.Some?
    ensures ElapsedSeconds(c, duration, now1) == ElapsedSeconds(c, duration, now2)
  {
  }

  /**
    * A pause from `t1` to `t2` adds exactly `t2 - t1` to the paused total and clears the pause
    * start; during it the card shows the time reached at `t1`, and afterwards the elapsed time
    * is the one the unpaused clock shows `t2 - t1` milliseconds earlier.
    */
  lemma PauseThenResume(c: Clock, duration: int, t1: int, t2: int, t: int)
    requires c.pausedAt.None? && t1 != 0
    ensures var p := Paused(c, t1);
      var r := Resumed(p, t2);
      && ElapsedSeconds(p, duration, t) == ElapsedSeconds(c, duration, t1)
      && r.pausedMs == c.pausedMs + (t2 - t1) && r.pausedAt.None? && r.startedAt == c.startedAt
      && ElapsedSeconds(r, duration, t) == ElapsedSeconds(c, duration, t - (t2 - t1))
  {
    var r := Resumed(Paused(c, t1), t2);
    assert t - r.startedAt - r.pausedMs == (t - (t2 - t1)) - c.startedAt - c.pausedMs;
  }

  // ---------------------------------------------------------------------------
  // The controls of a playing track
  // ---------------------------------------------------------------------------

  /** The buttons under the now-playing card, by custom id. */
  datatype Button = PauseResume | Skip | StopButton | OtherButton(id: string)

  /** What a press asks of the audio player. */
  datatype PlayerCommand = NoCommand | Pause | Unpause | StopPlayer

  const NotRequesterReply := "Only the requester can control this song."

  /** The stop button's teardown: the connection is destroyed and six entries go; the text channel stays. */
  function StopButtonMaps(m: Maps, g: string): Maps {
    m.(live := m.live - {g}, connections := m.connections - {g}, players := m.players - {g},
       queues := m.queues - {g}, nowPlaying := m.nowPlaying - {g},
       stayInVoice := m.stayInVoice - {g}, stayChannels := m.stayChannels - {g})
  }

  datatype Press = Press(clock: Clock, maps: Maps, disk: Disk, command: PlayerCommand,
                         reply: Option<string>, ends: bool)

  /**
    * A button press by `user` on the card of `track` in guild `g`; `isPaused` is the player's
    * status at the press. `ends` says whether the controls stop listening.
    */
  function Pressed(track: QueueTrack, g: string, c: Clock, m: Maps, d: Disk, user: string,
                   b: Button, isPaused: bool, now: int): Press
  {
    if user != track.requestedById then Press(c, m, d, NoCommand, Some(NotRequesterReply), false)
    else match b
      case PauseResume =>
        if isPaused then Press(Resumed(c, now), m, d, Unpause, None, false)
        else Press(Paused(c, now), m, d, Pause, None, false)
      case Skip => Press(c, m, d, StopPlayer, Some("Skipped the song!"), true)
      case StopButton => Press(c, StopButtonMaps(m, g), AfterRemove(d, g), NoCommand, Some("Stopped and left!"), true)
      case OtherButton(_) => Press(c, m, d, NoCommand, None, false)
  }

  /**
    * Only the requester can act: anyone else changes nothing and is told so. For the requester,
    * pause and resume touch only the clock, skip only stops the player, and stop removes the
    * guild's connection, player, queue, now-playing track and 24/7 entries, in memory and on
    * disk, touching no other guild and keeping the invariant.
    */
  lemma PressedSpec(track: QueueTrack, g: string, c: Clock, m: Maps, d: Disk, user: string,
                    b: Button, isPaused: bool, now: int)
    ensures var p := Pressed(track, g, c, m, d, user, b, isPaused, now);
      && (user != track.requestedById ==>
            p.clock == c && p.maps == m && p.disk == d && p.command == NoCommand
            && p.reply == Some(NotRequesterReply) && !p.ends)
      && (user == track.requestedById && b == PauseResume ==>
            p.maps == m && p.disk == d && p.command == (if isPaused then Unpause else Pause)
            && p.clock == (if isPaused then Resumed(c, now) else Paused(c, now)))
      && (user == track.requestedById && b == Skip ==> p.maps == m && p.disk == d && p.command == StopPlayer && p.ends)
      && (user == track.requestedById && b == StopButton ==>
            && g !in p.maps.live && g !in p.maps.connections && g !in p.maps.players
            && g !in p.maps.queues && g !in p.maps.nowPlaying && g !in p.maps.stayInVoice
            && g !in p.maps.stayChannels && g !in Parsed(p.disk)
            && p.maps.textChannels == m.textChannels
            && OthersKept(m, p.maps, g)
            && (Consistent(m) ==> Consistent(p.maps)))
  {
    if user == track.requestedById && b == StopButton {
      RemoveSpec(d, g);
    }
  }

  /** The per-track closure of `startNextTrack`: the track, its guild and its clock. */
  class Session {
    const guild: string
    const track: QueueTrack
    var startedAt: int
    var pausedAt: Option<int>
    var pausedMs: int

    function ClockOf(): Clock
      reads this
    {
      Clock(startedAt, pausedAt, pausedMs)
    }

    /** The clock starts at `now`, unpaused, with nothing paused yet. */
    constructor (guild: string, track: QueueTrack, now: int)
      ensures this.guild == guild && this.track == track
      ensures ClockOf() == Clock(now, None, 0)
    {
      this.guild := guild;
      this.track := track;
      startedAt := now;
      pausedAt := None;
      pausedMs := 0;
    }

    /** `getElapsedSeconds()` at time `now`. */
    method Elapsed(now: int) returns (secs: int)
      ensures secs == ElapsedSeconds(ClockOf(), track.duration, now)
      ensures 0 <= secs <= Max(0, track.duration)
    {
      var at := if pausedAt.Some? then pausedAt.value else now;
      var elapsed := (at - startedAt - pausedMs) / 1000;
      secs := Max(0, Min(track.duration, elapsed));
    }

    /** The collector's `collect` handler for one press. */
    method Collect(st: PlayerState, user: string, b: Button, isPaused: bool, now: int)
      returns (command: PlayerCommand, reply: Option<string>, ends: bool)
      modifies this, st, st.store
      ensures Press(ClockOf(), st.Snapshot(), st.store.disk, command, reply, ends)
              == Pressed(track, guild, old(ClockOf()), old(st.Snapshot()), old(st.store.disk),
                         user, b, isPaused, now)
    {
      command, reply, ends := NoCommand, None, false;
      if user != track.requestedById {
        reply := Some(NotRequesterReply);
        return;
      }
      match b
      case PauseResume =>
        if isPaused {
          if pausedAt.Some? && pausedAt.value != 0 {
            pausedMs := pausedMs + (now - pausedAt.value);
            pausedAt := None;
          }
          command := Unpause;
        } else {
          pausedAt := Some(now);
          command := Pause;
        }
      case Skip =>
        command, reply, ends := StopPlayer, Some("Skipped the song!"), true;
      case StopButton =>
        st.live := st.live - {guild};
        st.connections := st.connections - {guild};
        st.players := st.players - {guild};
        st.queues := st.queues - {guild};
        st.nowPlaying := st.nowPlaying - {guild};
        st.stayInVoice := st.stayInVoice - {guild};
        st.stayChannels := st.stayChannels - {guild};
        st.store.Remove(guild);
        reply, ends := Some("Stopped and left!"), true;
      case OtherButton(_) =>
    }
  }

  // ---------------------------------------------------------------------------
  // The Idle handler
  // ---------------------------------------------------------------------------

  /**
    * The player's Idle handler: the now-playing entry goes and the next track is tried; when
    * none starts the connection is destroyed unless the guild is in 24/7 mode, and the player
    * and the queue are dropped.
    */
  function Idle(m: Maps, g: string): Maps {
    var (m1, started) := StartNext(m.(nowPlaying := m.nowPlaying - {g}), g);
    if started then m1
    else
      var m2 := if g in m1.stayInVoice then m1
                else m1.(live := m1.live - {g}, connections := m1.connections - {g});
      m2.(players := m2.players - {g}, queues := m2.queues - {g})
  }

  /**
    * With a player, a connection and a queued track the head becomes current and the rest is
    * the queue. Otherwise the guild ends with no current track, no player and no queue, and it
    * keeps its connection exactly when it is in 24/7 mode and had one. Other guilds and the 24/7
    * entries are untouched and the invariant is kept.
    */
  lemma IdleSpec(m: Maps, g: string)
    ensures var m' := Idle(m, g);
      var q := QueueOf(m, g);
      && (g in m.players && HasConnection(m, g) && q != [] ==>
            g in m'.nowPlaying && m'.nowPlaying[g] == q[0] && QueueOf(m', g) == q[1..]
            && m'.players == m.players && m'.live == m.live && m'.connections == m.connections)
      && (!(g in m.players && HasConnection(m, g) && q != []) ==>
            && g !in m'.nowPlaying && g !in m'.players && g !in m'.queues
            && (g in m'.live <==> g in m.live && g in m.stayInVoice)
            && (g in m'.connections <==> g in m.connections && g in m.stayInVoice))
      && m'.stayInVoice == m.stayInVoice && m'.stayChannels == m.stayChannels
      && m'.textChannels == m.textChannels
      && OthersKept(m, m', g)
      && (Consistent(m) ==> Consistent(m'))
  {
    var m0 := m.(nowPlaying := m.nowPlaying - {g});
    StartNextSpec(m0, g);
    assert QueueOf(m0, g) == QueueOf(m, g);
  }

  method OnIdle(st: PlayerState, g: string)
    modifies st
    ensures st.Snapshot() == Idle(old(st.Snapshot()), g)
  {
    st.nowPlaying := st.nowPlaying - {g};
    var started := StartNextTrack(st, g);
    if !started {
      if g !in st.stayInVoice {
        st.live := st.live - {g};
        st.connections := st.connections - {g};
      }
      st.players := st.players - {g};
      st.queues := st.queues - {g};
    }
  }

  // ---------------------------------------------------------------------------
  // The play command
  // ---------------------------------------------------------------------------

  /** A stream entry of a search result. */
  datatype Download = Download(quality: string, url: string)

  /** The fields of a search result the command reads; artists are the primary artists' names. */
  datatype ApiSong = ApiSong(name: string, playCount: Option<int>, downloadUrl: seq<Download>,
                             artists: seq<string>, duration: int, image: seq<string>)

  /** The song search: the results for a query, or None when the request fails. */
  type SongSearch = string -> Option<seq<ApiSong>>

  /** `song.playCount || 0`. */
  function PlayCountOr0(s: ApiSong): int {
    s.playCount.GetOr(0)
  }

  /** The first result of the stable sort by descending play count. */
  function Chosen(results: seq<ApiSong>): ApiSong
    requires results != []
  {
    Ranking.SortDescIsStableSort(results, PlayCountOr0);
    Ranking.SortDesc(results, PlayCountOr0)[0]
  }

  /** The chosen song is the first result with the highest play count. */
  lemma ChosenIsFirstMax(results: seq<ApiSong>)
    requires results != []
    ensures exists i :: Ranking.IsFirstMax(results, PlayCountOr0, i) && Chosen(results) == results[i]
  {
    Ranking.SortDescHeadIsFirstMax(results, PlayCountOr0);
    var i := Ranking.FirstMaxIndex(results, PlayCountOr0);
    assert Ranking.IsFirstMax(results, PlayCountOr0, i);
  }

  /** `find(u => u.quality === "320kbps")`. */
  function Find320(ds: seq<Download>): Option<Download>
    decreases |ds|
  {
    if ds == [] then None
    else if ds[0].quality == "320kbps" then Some(ds[0])
    else Find320(ds[1..])
  }

  /** The stream URL: the first 320kbps entry, else the last entry; none for an empty list. */
  function StreamUrl(ds: seq<Download>): Option<string> {
    match Find320(ds)
    case Some(d) => Some(d.url)
    case None => if ds == [] then None else Some(ds[|ds| - 1].url)
  }

  /** The URL is that of the first 320kbps entry when there is one, otherwise that of the last entry. */
  lemma {:induction false} StreamUrlSpec(ds: seq<Download>)
    ensures StreamUrl(ds).None? <==> ds == []
    ensures forall i :: (0 <= i < |ds| && ds[i].quality == "320kbps"
              && (forall j :: 0 <= j < i ==> ds[j].quality != "320kbps")) ==> StreamUrl(ds) == Some(ds[i].url)
    ensures (forall j :: 0 <= j < |ds| ==> ds[j].quality != "320kbps") && ds != [] ==>
              StreamUrl(ds) == Some(ds[|ds| - 1].url)
  {
    Find320Spec(ds);
  }

  lemma {:induction false} Find320Spec(ds: seq<Download>)
    ensures Find320(ds).None? <==> forall j :: 0 <= j < |ds| ==> ds[j].quality != "320kbps"
    ensures forall i :: (0 <= i < |ds| && ds[i].quality == "320kbps"
              && (forall j :: 0 <= j < i ==> ds[j].quality != "320kbps")) ==> Find320(ds) == Some(ds[i])
    decreases |ds|
  {
    if ds != [] {
      Find320Spec(ds[1..]);
      forall i | 0 <= i < |ds| && ds[i].quality == "320kbps" && (forall j :: 0 <= j < i ==> ds[j].quality != "320kbps")
        ensures Find320(ds) == Some(ds[i])
      {
        if i > 0 {
          assert ds[0].quality != "320kbps";
          assert ds[1..][i - 1] == ds[i];
          assert forall j :: 0 <= j < i - 1 ==> ds[1..][j] == ds[j + 1];
        }
      }
      if forall j :: 1 <= j < |ds| ==> ds[j].quality != "320kbps" {
        assert forall j :: 0 <= j < |ds[1..]| ==> ds[1..][j] == ds[j + 1];
      }
      if Find320(ds[1..]).None? {
        assert forall j :: 0 <= j < |ds[1..]| ==> ds[1..][j] == ds[j + 1];
      }
    }
  }

  const UnknownArtist := "Unknown Artist"

  /** The primary artists' names joined by ", ", or "Unknown Artist" when that is empty. */
  function ArtistLine(names: seq<string>): (r: string)
    ensures r != ""
  {
    var joined := Join(names, ", ");
    if joined == "" then UnknownArtist else joined
  }

  /** With no names the artist is unknown; a single non-empty name is used as it is. */
  lemma ArtistLineSpec(names: seq<string>)
    ensures names == [] ==> ArtistLine(names) == UnknownArtist
    ensures |names| == 1 && names[0] != "" ==> ArtistLine(names) == names[0]
    ensures |names| >= 2 ==> ArtistLine(names) == names[0] + ", " + Join(names[1..], ", ")
  {
  }

  /**
    * The queue entry built from the chosen song; a song without stream entries or without
    * images makes the command throw (None).
    */
  function TrackOf(song: ApiSong, author: string): Option<QueueTrack> {
    match StreamUrl(song.downloadUrl)
    case None => None
    case Some(url) =>
      if song.image == [] then None
      else Some(QueueTrack(song.name, ArtistLine(song.artists), song.duration,
                           song.image[|song.image| - 1], url, author))
  }

  const JoinFirstReply := "Join a voice channel first"
  const NoQueryReply := "Provide song name"
  const NoSongsReply := "No songs found"
  const FailedReply := "Playback failed"

  function AddedReply(t: QueueTrack): string {
    "Added to queue: **" + t.title + "** - " + t.artist
  }

  /**
    * From the connection on: reuse or join (a join that never becomes ready throws, leaving
    * the library's connection behind), create the player if missing, remember the text
    * channel, append the track, and start it unless something is already playing.
    */
  function Enqueue(m: Maps, g: string, t: QueueTrack, text: string, readyOk: bool): (Maps, Option<string>) {
    if !HasConnection(m, g) && !readyOk then (m.(live := m.live + {g}), Some(FailedReply))
    else
      var m2 := EnqueuedMaps(m, g, t, text);
      if g in m2.nowPlaying then (m2, Some(AddedReply(t)))
      else (StartNext(m2, g).0, None)
  }

  /** `play(message, args)` on the maps; `voice` is the author's voice channel. */
  function Play(m: Maps, g: string, voice: Option<string>, args: seq<string>, search: SongSearch,
                author: string, text: string, readyOk: bool): (Maps, Option<string>)
  {
    if voice.None? then (m, Some(JoinFirstReply))
    else if args == [] then (m, Some(NoQueryReply))
    else match search(Join(args, " "))
      case None => (m, Some(FailedReply))
      case Some(results) =>
        if results == [] then (m, Some(NoSongsReply))
        else PlaySong(m, g, Chosen(results), author, text, readyOk)
  }

  /** What the command does with the chosen song: build its entry, then enqueue it. */
  function PlaySong(m: Maps, g: string, song: ApiSong, author: string, text: string, readyOk: bool)
    : (Maps, Option<string>)
  {
    match TrackOf(song, author)
    case None => (m, Some(FailedReply))
    case Some(t) => Enqueue(m, g, t, text, readyOk)
  }

  /**
    * Once connected, the track goes to the tail of the queue. With a track already playing
    * nothing starts and the reply names the track; otherwise the queue's head starts (the new
    * track itself when the queue was empty). Only guild `g` is touched and the invariant is kept.
    */
  lemma EnqueueSpec(m: Maps, g: string, t: QueueTrack, text: string, readyOk: bool)
    ensures var (m', reply) := Enqueue(m, g, t, text, readyOk);
      var q := QueueOf(m, g) + [t];
      && (!HasConnection(m, g) && !readyOk ==> m' == m.(live := m.live + {g}) && reply == Some(FailedReply))
      && (HasConnection(m, g) || readyOk ==>
            && g in m'.players && HasConnection(m', g)
            && m'.textChannels == m.textChannels[g := text]
            && (g in m.nowPlaying ==>
                  m'.nowPlaying == m.nowPlaying && QueueOf(m', g) == q && reply == Some(AddedReply(t)))
            && (g !in m.nowPlaying ==>
                  g in m'.nowPlaying && [m'.nowPlaying[g]] + QueueOf(m', g) == q && reply.None?)
            && (g !in m.nowPlaying && QueueOf(m, g) == [] ==> m'.nowPlaying[g] == t && QueueOf(m', g) == []))
  {
    if HasConnection(m, g) || readyOk {
      var m2 := EnqueuedMaps(m, g, t, text);
      assert QueueOf(m2, g) == QueueOf(m, g) + [t];
      StartNextSpec(m2, g);
    }
  }

  /** The maps once the track is appended, before anything starts. */
  function EnqueuedMaps(m: Maps, g: string, t: QueueTrack, text: string): Maps {
    var m1 := if HasConnection(m, g) then m
              else m.(live := m.live + {g}, connections := m.connections + {g});
    m1.(players := m1.players + {g}, textChannels := m1.textChannels[g := text],
        queues := m1.queues[g := QueueOf(m1, g) + [t]])
  }

  /** Enqueueing touches only guild `g`, leaves the 24/7 entries alone and keeps the invariant. */
  lemma EnqueueKeepsOthers(m: Maps, g: string, t: QueueTrack, text: string, readyOk: bool)
    ensures var (m', reply) := Enqueue(m, g, t, text, readyOk);
      && m'.stayInVoice == m.stayInVoice && m'.stayChannels == m.stayChannels
      && OthersKept(m, m', g)
      && (Consistent(m) ==> Consistent(m'))
  {
    if HasConnection(m, g) || readyOk {
      var m2 := EnqueuedMaps(m, g, t, text);
      assert OthersKept(m, m2, g);
      StartNextSpec(m2, g);
    }
  }

  /**
    * Every refusal happens before any change; a found song is the one Python's `max` would
    * pick, the first result with the most plays (`FirstMaxIndex`).
    */
  lemma PlaySpec(m: Maps, g: string, voice: Option<string>, args: seq<string>, search: SongSearch,
                 author: string, text: string, readyOk: bool)
    ensures var (m', reply) := Play(m, g, voice, args, search, author, text, readyOk);
      && (voice.None? ==> m' == m && reply == Some(JoinFirstReply))
      && (voice.Some? && args == [] ==> m' == m && reply == Some(NoQueryReply))
      && (voice.Some? && args != [] && search(Join(args, " ")) == Some([]) ==> m' == m && reply == Some(NoSongsReply))
      && (voice.Some? && args != [] && search(Join(args, " ")).None? ==> m' == m && reply == Some(FailedReply))
      && (voice.Some? && args != [] && search(Join(args, " ")).Some? && search(Join(args, " ")).value != [] ==>
            var results := search(Join(args, " ")).value;
            (m', reply) == PlaySong(m, g, results[Ranking.FirstMaxIndex(results, PlayCountOr0)], author, text, readyOk))
      && OthersKept(m, m', g)
      && (Consistent(m) ==> Consistent(m'))
  {
    if voice.Some? && args != [] && search(Join(args, " ")).Some? && search(Join(args, " ")).value != [] {
      var results := search(Join(args, " ")).value;
      var i := Ranking.FirstMaxIndex(results, PlayCountOr0);
      Ranking.SortDescHeadIsFirstMax(results, PlayCountOr0);
      assert Chosen(results) == results[i];
      var t := TrackOf(Chosen(results), author);
      if t.Some? {
        EnqueueKeepsOthers(m, g, t.value, text, readyOk);
      }
    }
  }

  /** The connection-to-start part of the command. */
  method EnqueueTrack(st: PlayerState, g: string, t: QueueTrack, text: string, readyOk: bool)
    returns (reply: Option<string>)
    modifies st
    ensures (st.Snapshot(), reply) == Enqueue(old(st.Snapshot()), g, t, text, readyOk)
  {
    if !(g in st.connections || g in st.live) {
      st.live := st.live + {g};
      if !readyOk {
        return Some(FailedReply);
      }
      st.connections := st.connections + {g};
    }
    st.players := st.players + {g};
    st.textChannels := st.textChannels[g := text];
    var queue := if g in st.queues then st.queues[g] else [];
    st.queues := st.queues[g := queue + [t]];
    if g in st.nowPlaying {
      return Some(AddedReply(t));
    }
    var _ := StartNextTrack(st, g);
    reply := None;
  }

  method PlayCommand(st: PlayerState, g: string, voice: Option<string>, args: seq<string>, search: SongSearch,
                     author: string, text: string, readyOk: bool)
    returns (reply: Option<string>)
    modifies st
    ensures (st.Snapshot(), reply) == Play(old(st.Snapshot()), g, voice, args, search, author, text, readyOk)
  {
    if voice.None? {
      return Some(JoinFirstReply);
    }
    if |args| == 0 {
      return Some(NoQueryReply);
    }
    var response := search(Join(args, " "));
    if response.None? {
      return Some(FailedReply);
    }
    var results := response.value;
    if |results| == 0 {
      return Some(NoSongsReply);
    }
    var track := TrackOf(Chosen(results), author);
    if track.None? {
      return Some(FailedReply);
    }
    reply := EnqueueTrack(st, g, track.value, text, readyOk);
  }
}
