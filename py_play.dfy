/**
  * The playback cog of the Python bot (cogs/music/play.py): duration formatting, starting
  * the next queued track, the after-track callback with its 24/7 auto-fill, the `play`,
  * `sortqueue`, `popular` and `playcount` commands, and the Stop button.
  * The voice client is a value (see Guilds.Voice); building the FFmpeg source and
  * `voice_client.play` are oracles that succeed or raise; the now-playing message is
  * the oracle's answer `sent`; catalogue searches go through `Search`.
  */
module PlayCog {
  import opened Wrappers
  import opened Text
  import opened MusicState
  import opened JioSaavn
  import opened Guilds
  import Ranking

  // ---------------------------------------------------------------- durations

  /** `_format_duration`: "Unknown" for no length, else "m:ss", or "h:mm:ss" from one hour on. */
  function FormatDuration(seconds: int): (r: string)
    ensures seconds <= 0 <==> r == "Unknown"
  {
    if seconds <= 0 then "Unknown"
    else
      var mins := seconds / 60;
      Clock(mins / 60, mins % 60, seconds % 60)
  }

  /** The clock text for hours, minutes and seconds; the hour field only when there are hours. */
  function Clock(hours: nat, m: nat, secs: nat): (r: string)
    ensures |r| > 0 && IsDigit(r[0])
  {
    var lead := NatToString(if hours != 0 then hours else m);
    var r := if hours != 0 then lead + ":" + Pad2(m) + ":" + Pad2(secs) else lead + ":" + Pad2(secs);
    assert r[0] == lead[0];
    r
  }

  /** A clock field: two digits below 60. */
  predicate IsClockField(s: string) {
    |s| == 2 && AllDigits(s) && DigitsValue(s) < 60
  }

  /** Reads "m:ss" or "h:mm:ss" back into seconds; anything else is None. */
  function ClockSeconds(s: string): Option<int> {
    ClockFields(Split(s, ':'))
  }

  /** The fields of a clock, minutes first or hours first. */
  function ClockFields(parts: seq<string>): Option<int> {
    if |parts| == 2 then MinutesClock(parts[0], parts[1])
    else if |parts| == 3 then HoursClock(parts[0], parts[1], parts[2])
    else None
  }

  function MinutesClock(m: string, s: string): Option<int> {
    if IsDigitString(m) && IsClockField(s) then Some(60 * DigitsValue(m) + DigitsValue(s)) else None
  }

  function HoursClock(h: string, m: string, s: string): Option<int> {
    if IsDigitString(h) && IsClockField(m) && IsClockField(s) then
      Some(3600 * DigitsValue(h) + 60 * DigitsValue(m) + DigitsValue(s))
    else None
  }

  lemma DigitsHaveNoColon(s: string)
    requires AllDigits(s)
    ensures ':' !in s
  {
    assert forall i :: 0 <= i < |s| ==> s[i] != ':';
  }

  lemma ClockField(n: nat)
    requires n < 60
    ensures IsClockField(Pad2(n)) && DigitsValue(Pad2(n)) == n
  {
    DigitsValueOfPad2(n);
  }

  lemma SplitClock2(text: string, a: string, b: string)
    requires ':' !in a && ':' !in b && text == a + [':'] + b
    ensures Split(text, ':') == [a, b]
  {
    SplitCons(a, ':', b);
    assert Split(b, ':') == [b];
  }

  lemma SplitClock3(text: string, a: string, b: string, c: string)
    requires ':' !in a && ':' !in b && ':' !in c && text == a + [':'] + (b + [':'] + c)
    ensures Split(text, ':') == [a, b, c]
  {
    SplitCons(a, ':', b + [':'] + c);
    SplitClock2(b + [':'] + c, b, c);
  }

  /** "m:ss" reads back as its minutes and seconds. */
  lemma ClockSeconds2(text: string, a: string, b: string)
    requires IsDigitString(a) && IsClockField(b) && text == a + ":" + b
    ensures ClockSeconds(text) == Some(60 * DigitsValue(a) + DigitsValue(b))
    ensures |Split(text, ':')| == 2
  {
    DigitsHaveNoColon(a);
    DigitsHaveNoColon(b);
    SplitClock2(text, a, b);
    ClockOfPieces2(text, a, b);
    MinutesClockValue(a, b);
  }

  lemma MinutesClockValue(a: string, b: string)
    requires IsDigitString(a) && IsClockField(b)
    ensures MinutesClock(a, b) == Some(60 * DigitsValue(a) + DigitsValue(b))
  {
  }

  lemma ClockOfPieces2(text: string, a: string, b: string)
    requires Split(text, ':') == [a, b]
    ensures ClockSeconds(text) == MinutesClock(a, b)
  {
    var parts := [a, b];
    assert |parts| == 2 && parts[0] == a && parts[1] == b;
  }

  /** "h:mm:ss" reads back as its hours, minutes and seconds. */
  lemma ClockSeconds3(text: string, a: string, b: string, c: string)
    requires IsDigitString(a) && IsClockField(b) && IsClockField(c) && text == a + ":" + b + ":" + c
    ensures ClockSeconds(text) == Some(3600 * DigitsValue(a) + 60 * DigitsValue(b) + DigitsValue(c))
    ensures |Split(text, ':')| == 3
  {
    DigitsHaveNoColon(a);
    DigitsHaveNoColon(b);
    DigitsHaveNoColon(c);
    assert text == a + [':'] + (b + [':'] + c);
    SplitClock3(text, a, b, c);
    ClockOfPieces3(text, a, b, c);
    HoursClockValue(a, b, c);
  }

  lemma HoursClockValue(a: string, b: string, c: string)
    requires IsDigitString(a) && IsClockField(b) && IsClockField(c)
    ensures HoursClock(a, b, c) == Some(3600 * DigitsValue(a) + 60 * DigitsValue(b) + DigitsValue(c))
  {
  }

  lemma ClockOfPieces3(text: string, a: string, b: string, c: string)
    requires Split(text, ':') == [a, b, c]
    ensures ClockSeconds(text) == HoursClock(a, b, c)
  {
    var parts := [a, b, c];
    assert |parts| == 3 && parts[0] == a && parts[1] == b && parts[2] == c;
  }

  lemma ClockOfMinutes(m: nat, secs: nat, total: int)
    requires secs < 60 && total == 60 * m + secs
    ensures ClockSeconds(Clock(0, m, secs)) == Some(total)
    ensures |Split(Clock(0, m, secs), ':')| == 2
  {
    var a, b := NatToString(m), Pad2(secs);
    var text := Clock(0, m, secs);
    assert text == a + ":" + b;
    ClockField(secs);
    DigitsValueOfNatToString(m);
    ClockSeconds2(text, a, b);
    assert 60 * DigitsValue(a) + DigitsValue(b) == total;
  }

  lemma ClockOfHours(h: nat, m: nat, secs: nat, total: int)
    requires h != 0 && m < 60 && secs < 60 && total == 3600 * h + 60 * m + secs
    ensures ClockSeconds(Clock(h, m, secs)) == Some(total)
    ensures |Split(Clock(h, m, secs), ':')| == 3
  {
    var a, b, c := NatToString(h), Pad2(m), Pad2(secs);
    var text := Clock(h, m, secs);
    assert text == a + ":" + b + ":" + c;
    ClockField(secs);
    ClockField(m);
    DigitsValueOfNatToString(h);
    ClockSeconds3(text, a, b, c);
    assert 3600 * DigitsValue(a) + 60 * DigitsValue(b) + DigitsValue(c) == total;
  }

  /**
    * A positive duration is written as a clock that reads back as the same number of
    * seconds, with minutes and seconds as two-digit fields below 60, and with an hour
    * field exactly from one hour on.
    */
  lemma FormatDurationRoundTrip(seconds: int)
    requires seconds > 0
    ensures ClockSeconds(FormatDuration(seconds)) == Some(seconds)
    ensures |Split(FormatDuration(seconds), ':')| == (if seconds >= 3600 then 3 else 2)
  {
    var hours, m, secs := seconds / 60 / 60, seconds / 60 % 60, seconds % 60;
    ClockArithmetic(seconds, hours, m, secs);
    ClockRoundTrip(hours, m, secs, seconds);
    assert FormatDuration(seconds) == Clock(hours, m, secs);
  }

  /** A clock with fields below 60 reads back as its total, with an hour field exactly when there are hours. */
  lemma ClockRoundTrip(hours: nat, m: nat, secs: nat, total: int)
    requires m < 60 && secs < 60 && total == 3600 * hours + 60 * m + secs
    ensures ClockSeconds(Clock(hours, m, secs)) == Some(total)
    ensures |Split(Clock(hours, m, secs), ':')| == (if hours != 0 then 3 else 2)
  {
    if hours != 0 {
      ClockOfHours(hours, m, secs, total);
    } else {
      ClockOfMinutes(m, secs, total);
    }
  }

  lemma ClockArithmetic(seconds: nat, hours: nat, m: nat, secs: nat)
    requires hours == seconds / 60 / 60 && m == seconds / 60 % 60 && secs == seconds % 60
    ensures m < 60 && secs < 60 && seconds == 3600 * hours + 60 * m + secs
    ensures hours != 0 <==> seconds >= 3600
  {
  }

  // ---------------------------------------------------------------- starting the next track

  datatype Outcome = Outcome(guild: GuildView, voice: Voice)

  /**
    * `_start_next_track`. A bare id at the head raises AttributeError inside the first `try`
    * and is handled like a source that cannot be built.
    */
  function StartNext(g: GuildView, v: Voice, sourceOk: bool, playOk: bool, sent: Option<Message>): Outcome {
    if !Connected(v) || g.queue == [] then Outcome(g.(nowPlaying := None), v)
    else
      var head := g.queue[0];
      var rest := g.(queue := g.queue[1..]);
      if head.BareId? || !sourceOk || !playOk then Outcome(rest.(nowPlaying := None), v)
      else
        var started := rest.(nowPlaying := Some(head.track));
        var playing := v.(playing := true, paused := false);
        var shown := if g.textChannelId.Some? then sent else None;
        match shown
        case None => Outcome(started, playing)
        case Some(msg) =>
          Outcome(started.(nowPlayingChannelId := Some(msg.channelId), nowPlayingMessageId := Some(msg.id)), playing)
  }

  /** Without a connected voice client or with an empty queue, nothing starts and the queue is left alone. */
  lemma StartNextWhenIdle(g: GuildView, v: Voice, sourceOk: bool, playOk: bool, sent: Option<Message>)
    requires !Connected(v) || g.queue == []
    ensures StartNext(g, v, sourceOk, playOk, sent) == Outcome(g.(nowPlaying := None), v)
  {
  }

  /**
    * Otherwise exactly the head leaves the queue. It becomes `now_playing` when it is a track
    * and both the source and `play` succeed; on failure `now_playing` is None and the head is
    * not put back. 24/7 mode and the channels are untouched.
    */
  lemma StartNextPopsHead(g: GuildView, v: Voice, sourceOk: bool, playOk: bool, sent: Option<Message>)
    requires Connected(v) && g.queue != []
    ensures var o := StartNext(g, v, sourceOk, playOk, sent);
      && o.guild.queue == g.queue[1..]
      && (o.guild.nowPlaying.Some? <==> g.queue[0].Queued? && sourceOk && playOk)
      && (o.guild.nowPlaying.Some? ==> g.queue[0] == Queued(o.guild.nowPlaying.value) && o.voice.playing)
      && (o.guild.nowPlaying.None? ==> o.voice == v)
      && o.guild.mode247 == g.mode247 && o.guild.textChannelId == g.textChannelId
      && o.guild.voiceChannelId == g.voiceChannelId && o.guild.workerTask == g.workerTask
  {
  }

  /** Starting with every oracle succeeding, `n + 1` times in a row, plays the queue's entries in order. */
  function StartTimes(g: GuildView, v: Voice, n: nat): Outcome
    decreases n
  {
    var o := StartNext(g, v, true, true, None);
    if n == 0 then o else StartTimes(o.guild, o.voice, n - 1)
  }

  lemma {:induction false} StartTimesIsFifo(g: GuildView, v: Voice, n: nat)
    requires Connected(v) && n < |g.queue| && AllTracks(g.queue)
    ensures var o := StartTimes(g, v, n);
      && o.guild.nowPlaying == Some(g.queue[n].track)
      && o.guild.queue == g.queue[n + 1..]
      && Connected(o.voice)
    decreases n
  {
    var o := StartNext(g, v, true, true, None);
    assert g.queue[0].Queued?;
    if n > 0 {
      assert o.guild.queue == g.queue[1..];
      StartTimesIsFifo(o.guild, o.voice, n - 1);
      assert g.queue[1..][n - 1] == g.queue[n];
      assert g.queue[1..][n..] == g.queue[n + 1..];
    }
  }

  /** A bare id at the head of the queue is dropped and never plays, whatever the oracles say. */
  lemma BareIdNeverStarts(g: GuildView, v: Voice, sourceOk: bool, playOk: bool, sent: Option<Message>)
    requires Connected(v) && g.queue != [] && g.queue[0].BareId?
    ensures var o := StartNext(g, v, sourceOk, playOk, sent);
      o.guild.nowPlaying == None && o.guild.queue == g.queue[1..] && o.voice == v
  {
  }

  method StartNextTrack(reg: MusicStates, g: int, voice: Voice, sourceOk: bool, playOk: bool, sent: Option<Message>)
    returns (v: Voice)
    requires reg.Valid()
    modifies reg, reg.states.Values
    ensures reg.Valid() && OnlyGuildChanged(reg, g) && g in reg.states
    ensures Outcome(reg.ViewOf(g), v) == StartNext(old(reg.ViewOf(g)), voice, sourceOk, playOk, sent)
  {
    var s := reg.State(g);
    if !Connected(voice) {
      s.nowPlaying := None;
      return voice;
    }
    if s.queue == [] {
      s.nowPlaying := None;
      return voice;
    }
    var head := s.queue[0];
    s.queue := s.queue[1..];
    if head.BareId? || !sourceOk || !playOk {
      s.nowPlaying := None;
      return voice;
    }
    s.nowPlaying := Some(head.track);
    v := voice.(playing := true, paused := false);
    var shown := if s.textChannelId.Some? then sent else None;
    if shown.Some? {
      s.nowPlayingChannelId := Some(shown.value.channelId);
      s.nowPlayingMessageId := Some(shown.value.id);
    }
  }

  // ---------------------------------------------------------------- 24/7 auto-fill

  /** A catalogue search: `search_first_track` with the network and `html.unescape` fixed. */
  type Search = string -> Result<Option<Track>, string>

  function Searcher(fetch: Fetch, unescape: Unescape): Search {
    q => SearchFirstTrack(fetch, unescape, q)
  }

  /** The tracks an auto-fill appends, and whether a search raised and cut it short. */
  datatype Fill = Fill(added: seq<Track>, raised: bool)

  /** Searching each id in turn and keeping each track found, until a search raises. */
  function FillFromIds(ids: seq<string>, search: Search): Fill
    decreases |ids|
  {
    if ids == [] then Fill([], false)
    else
      var f := FillFromIds(ids[..|ids| - 1], search);
      if f.raised then f
      else
        match search(ids[|ids| - 1])
        case Err(_) => Fill(f.added, true)
        case Ok(None) => f
        case Ok(Some(t)) => Fill(f.added + [t], false)
  }

  /** At most one track per id, and each added track is what the search for some id found. */
  lemma {:induction false} FillFromIdsSources(ids: seq<string>, search: Search)
    ensures |FillFromIds(ids, search).added| <= |ids|
    ensures forall t :: t in FillFromIds(ids, search).added ==>
      exists j :: 0 <= j < |ids| && search(ids[j]) == Ok(Some(t))
    decreases |ids|
  {
    if ids != [] {
      var front := ids[..|ids| - 1];
      FillFromIdsSources(front, search);
      assert forall j :: 0 <= j < |front| ==> front[j] == ids[j];
    }
  }

  /**
    * The ids are searched in order: what the first ids find comes first in the queue, followed
    * by what the later ids find, unless a search on the first ids already raised.
    */
  lemma {:induction false} FillFromIdsInOrder(a: seq<string>, b: seq<string>, search: Search)
    requires !FillFromIds(a, search).raised
    ensures FillFromIds(a + b, search)
            == Fill(FillFromIds(a, search).added + FillFromIds(b, search).added, FillFromIds(b, search).raised)
    decreases |b|
  {
    if b == [] {
      assert a + b == a;
    } else {
      var front := b[..|b| - 1];
      assert (a + b)[..|a + b| - 1] == a + front;
      assert (a + b)[|a + b| - 1] == b[|b| - 1];
      FillFromIdsInOrder(a, front, search);
      var fa := FillFromIds(a, search).added;
      var fb := FillFromIds(front, search);
      if !fb.raised {
        match search(b[|b| - 1])
        case Err(_) =>
        case Ok(None) =>
        case Ok(Some(t)) =>
          assert (fa + fb.added) + [t] == fa + (fb.added + [t]);
      }
    }
  }

  /** Once a search has raised, the later ids are never searched. */
  lemma {:induction false} FillRaisedStays(ids: seq<string>, k: nat, search: Search)
    requires k <= |ids| && FillFromIds(ids[..k], search).raised
    ensures FillFromIds(ids, search) == FillFromIds(ids[..k], search)
    decreases |ids| - k
  {
    if k < |ids| {
      var front := ids[..|ids| - 1];
      assert front[..k] == ids[..k];
      FillRaisedStays(front, k, search);
    } else {
      assert ids[..k] == ids;
    }
  }

  const PopularQueries: seq<string> := ["Bollywood Hits", "Arijit Singh", "Neha Kakkar", "Badshah", "Honey Singh"]

  /**
    * `_play_most_popular_for_guild`, given the top ids: with no history, one search for the
    * query at `pick` (the `random.choice`); otherwise a search for each of the first five ids.
    */
  function AutoFill(ids: seq<string>, search: Search, pick: nat): Fill
    requires pick < |PopularQueries|
  {
    if ids == [] then
      match search(PopularQueries[pick])
      case Err(_) => Fill([], true)
      case Ok(None) => Fill([], false)
      case Ok(Some(t)) => Fill([t], false)
    else FillFromIds(ids[..Min(5, |ids|)], search)
  }

  /**
    * Without history at most one track is added, the one found for the picked popular query;
    * with history at most five, each found for one of the five highest-ranked ids.
    */
  lemma AutoFillSpec(ids: seq<string>, search: Search, pick: nat)
    requires pick < |PopularQueries|
    ensures var f := AutoFill(ids, search, pick);
      && (ids == [] ==> |f.added| <= 1 && (f.added != [] ==> search(PopularQueries[pick]) == Ok(Some(f.added[0]))))
      && (ids != [] ==> |f.added| <= 5)
      && (ids != [] ==> forall t :: t in f.added ==>
            exists j :: 0 <= j < Min(5, |ids|) && search(ids[j]) == Ok(Some(t)))
  {
    if ids != [] {
      var top := ids[..Min(5, |ids|)];
      FillFromIdsSources(top, search);
      assert forall j :: 0 <= j < |top| ==> top[j] == ids[j];
    }
  }

  function Entries(tracks: seq<Track>): (es: seq<QueueEntry>)
    ensures |es| == |tracks|
    ensures forall i :: 0 <= i < |es| ==> es[i] == Queued(tracks[i])
  {
    seq(|tracks|, i requires 0 <= i < |tracks| => Queued(tracks[i]))
  }

  /** `_play_most_popular_for_guild`: only appends to the queue; `raised` reports a search that raised. */
  method PlayMostPopularForGuild(reg: MusicStates, g: int, search: Search, pick: nat) returns (raised: bool)
    requires reg.Valid() && pick < |PopularQueries|
    modifies reg, reg.states.Values
    ensures reg.Valid() && OnlyGuildChanged(reg, g) && g in reg.states
    ensures var f := AutoFill(TopIds(reg.playCounts.table, 10), search, pick);
      && reg.ViewOf(g) == old(reg.ViewOf(g)).(queue := old(reg.ViewOf(g)).queue + Entries(f.added))
      && raised == f.raised
  {
    var s := reg.State(g);
    raised := FillFromPopular(s, search, pick);
  }

  /**
    * The body of `_play_most_popular_for_guild` once `_state` has found the guild's state:
    * the top ids of the shared counts, or one of the fixed queries when there are none.
    */
  method FillFromPopular(s: GuildMusicState, search: Search, pick: nat) returns (raised: bool)
    requires pick < |PopularQueries|
    modifies s
    ensures var f := AutoFill(TopIds(s.playCounts.table, 10), search, pick);
      && s.View() == old(s.View()).(queue := old(s.queue) + Entries(f.added))
      && raised == f.raised
  {
    var ids := s.GetMostPlayedTracks(10);
    if ids == [] {
      var found := search(PopularQueries[pick]);
      if found.Err? {
        return true;
      }
      if found.value.Some? {
        s.queue := s.queue + [Queued(found.value.value)];
      }
      return false;
    }
    var added;
    added, raised := SearchEach(ids[..Min(5, |ids|)], search);
    s.queue := s.queue + Entries(added);
  }

  /** The `for track_id in popular_ids[:5]` loop: search each id, keep what is found, stop at a raise. */
  method SearchEach(ids: seq<string>, search: Search) returns (added: seq<Track>, raised: bool)
    ensures Fill(added, raised) == FillFromIds(ids, search)
  {
    added, raised := [], false;
    var i := 0;
    while i < |ids|
      invariant 0 <= i <= |ids|
      invariant FillFromIds(ids[..i], search) == Fill(added, false)
    {
      assert ids[..i + 1][..i] == ids[..i];
      var found := search(ids[i]);
      if found.Err? {
        FillRaisedStays(ids, i + 1, search);
        return added, true;
      }
      if found.value.Some? {
        added := added + [found.value.value];
      }
      i := i + 1;
    }
    assert ids[..i] == ids;
  }

  // ---------------------------------------------------------------- after a track ends

  datatype AfterOutcome = AfterOutcome(guild: GuildView, table: Table, voice: Voice, raised: bool)

  /**
    * `_after_track_finished` for a guild the bot still knows: record the finished track's
    * play, clear the now-playing slot and message, auto-fill an empty 24/7 queue from the
    * updated counts, then start the next track.
    */
  function AfterFinish(g: GuildView, t: Table, v: Voice, search: Search, pick: nat,
                       sourceOk: bool, playOk: bool, sent: Option<Message>): AfterOutcome
    requires WellFormed(t) && pick < |PopularQueries|
  {
    var t1 := if g.nowPlaying.Some? then Incremented(t, TrackId(g.nowPlaying.value)) else t;
    var g1 := g.(nowPlaying := None, nowPlayingChannelId := None, nowPlayingMessageId := None);
    RefillThenStart(g1, t1, v, search, pick, sourceOk, playOk, sent)
  }

  /** What the auto-fill adds: only an empty queue in 24/7 mode is refilled. */
  function Refill(g: GuildView, t: Table, search: Search, pick: nat): Fill
    requires pick < |PopularQueries|
  {
    if g.mode247 && g.queue == [] then AutoFill(TopIds(t, 10), search, pick) else Fill([], false)
  }

  /** The second half of `_after_track_finished`: the 24/7 auto-fill of an empty queue, then the next track. */
  function RefillThenStart(g: GuildView, t: Table, v: Voice, search: Search, pick: nat,
                           sourceOk: bool, playOk: bool, sent: Option<Message>): AfterOutcome
    requires pick < |PopularQueries|
  {
    var fill := Refill(g, t, search, pick);
    var g2 := g.(queue := g.queue + Entries(fill.added));
    if fill.raised then AfterOutcome(g2, t, v, true)
    else
      var o := StartNext(g2, v, sourceOk, playOk, sent);
      AfterOutcome(o.guild, t, o.voice, false)
  }

  /**
    * The finished track gets exactly one more play and no other count changes; a queue that
    * was not empty gets no auto-fill, so the next track is the old head; the finished
    * track is not put back in the queue.
    */
  lemma AfterFinishSpec(g: GuildView, t: Table, v: Voice, search: Search, pick: nat,
                        sourceOk: bool, playOk: bool, sent: Option<Message>)
    requires WellFormed(t) && pick < |PopularQueries|
    ensures var a := AfterFinish(g, t, v, search, pick, sourceOk, playOk, sent);
      && (g.nowPlaying.Some? ==>
            && Count(a.table, TrackId(g.nowPlaying.value)) == Count(t, TrackId(g.nowPlaying.value)) + 1
            && forall k :: k != TrackId(g.nowPlaying.value) ==> Count(a.table, k) == Count(t, k))
      && (g.nowPlaying.None? ==> a.table == t)
      && (g.queue != [] ==> !a.raised && a.guild.queue == (if Connected(v) then g.queue[1..] else g.queue))
      && (g.queue != [] && Connected(v) && a.guild.nowPlaying.Some? ==> g.queue[0] == Queued(a.guild.nowPlaying.value))
      && (g.queue != [] && !Connected(v) ==> a.guild.nowPlaying == None && a.voice == v)
  {
    var t1 := if g.nowPlaying.Some? then Incremented(t, TrackId(g.nowPlaying.value)) else t;
    var g1 := g.(nowPlaying := None, nowPlayingChannelId := None, nowPlayingMessageId := None);
    var a := AfterFinish(g, t, v, search, pick, sourceOk, playOk, sent);
    assert a == RefillThenStart(g1, t1, v, search, pick, sourceOk, playOk, sent);
    RefillThenStartSpec(g1, t1, v, search, pick, sourceOk, playOk, sent);
  }

  /** The auto-fill and start step keeps the counts; with a non-empty queue it only starts the head. */
  lemma RefillThenStartSpec(g: GuildView, t: Table, v: Voice, search: Search, pick: nat,
                            sourceOk: bool, playOk: bool, sent: Option<Message>)
    requires pick < |PopularQueries|
    ensures var a := RefillThenStart(g, t, v, search, pick, sourceOk, playOk, sent);
      && a.table == t
      && (g.queue != [] ==> !a.raised && a.guild.queue == (if Connected(v) then g.queue[1..] else g.queue))
      && (g.queue != [] && Connected(v) && a.guild.nowPlaying.Some? ==> g.queue[0] == Queued(a.guild.nowPlaying.value))
      && (g.queue != [] && !Connected(v) ==> a.guild.nowPlaying == None && a.voice == v)
  {
    if g.queue != [] {
      assert Refill(g, t, search, pick) == Fill([], false);
      assert g.(queue := g.queue + Entries([])) == g;
      if Connected(v) {
        StartNextPopsHead(g, v, sourceOk, playOk, sent);
      } else {
        StartNextWhenIdle(g, v, sourceOk, playOk, sent);
      }
    }
  }

  /**
    * An empty 24/7 queue is refilled before anything starts, and then the refilled queue's
    * head is started like any other; outside 24/7 an empty queue stays empty.
    */
  lemma AfterFinishFillsOnlyEmpty247(g: GuildView, t: Table, v: Voice, search: Search, pick: nat,
                                     sourceOk: bool, playOk: bool, sent: Option<Message>)
    requires WellFormed(t) && pick < |PopularQueries| && g.queue == []
    ensures var a := AfterFinish(g, t, v, search, pick, sourceOk, playOk, sent);
      && (!g.mode247 ==> a.guild.queue == [] && a.guild.nowPlaying == None && !a.raised)
      && (g.mode247 ==>
            var f := AutoFill(TopIds(a.table, 10), search, pick);
            a.raised == f.raised
            && (f.raised ==> a.guild.queue == Entries(f.added) && a.guild.nowPlaying == None)
            && (!f.raised ==>
                  var g1 := g.(nowPlaying := None, nowPlayingChannelId := None, nowPlayingMessageId := None);
                  var o := StartNext(g1.(queue := Entries(f.added)), v, sourceOk, playOk, sent);
                  && a.guild == o.guild && a.voice == o.voice
                  && (Connected(v) && f.added != [] ==>
                        && a.guild.queue == Entries(f.added)[1..]
                        && (a.guild.nowPlaying.Some? <==> sourceOk && playOk)
                        && (a.guild.nowPlaying.Some? ==> a.guild.nowPlaying.value == f.added[0]))))
  {
    if g.mode247 {
      var t1 := if g.nowPlaying.Some? then Incremented(t, TrackId(g.nowPlaying.value)) else t;
      var f := AutoFill(TopIds(t1, 10), search, pick);
      var g1 := g.(nowPlaying := None, nowPlayingChannelId := None, nowPlayingMessageId := None);
      assert g1.queue + Entries(f.added) == Entries(f.added);
      if !f.raised && Connected(v) && f.added != [] {
        StartNextPopsHead(g1.(queue := Entries(f.added)), v, sourceOk, playOk, sent);
      }
    }
  }

  /** `_after_track_finished`; `guildKnown` is whether `bot.get_guild` still finds the guild. */
  method AfterTrackFinished(reg: MusicStates, g: int, guildKnown: bool, voice: Voice, search: Search, pick: nat,
                            sourceOk: bool, playOk: bool, sent: Option<Message>)
    returns (v: Voice, raised: bool)
    requires reg.Valid() && pick < |PopularQueries|
    modifies reg, reg.states.Values, reg.playCounts
    ensures reg.Valid() && OnlyGuildChanged(reg, g)
    ensures !guildKnown ==> reg.states == old(reg.states) && reg.playCounts.table == old(reg.playCounts.table)
                            && v == voice && !raised
    ensures guildKnown ==>
      AfterOutcome(reg.ViewOf(g), reg.playCounts.table, v, raised)
        == AfterFinish(old(reg.ViewOf(g)), old(reg.playCounts.table), voice, search, pick, sourceOk, playOk, sent)
  {
    v, raised := voice, false;
    if !guildKnown {
      return;
    }
    var _ := reg.State(g);
    ClearFinished(reg, g);
    v, raised := RefillThenStartNext(reg, g, voice, search, pick, sourceOk, playOk, sent);
  }

  /** The first half of `_after_track_finished`: count the finished track, then clear the now-playing slot. */
  method ClearFinished(reg: MusicStates, g: int)
    requires reg.Valid() && g in reg.states
    modifies reg.states[g], reg.playCounts
    ensures reg.Valid() && OnlyGuildChanged(reg, g)
    ensures var finished := old(reg.ViewOf(g)).nowPlaying;
      reg.playCounts.table
        == (if finished.Some? then Incremented(old(reg.playCounts.table), TrackId(finished.value))
            else old(reg.playCounts.table))
    ensures reg.ViewOf(g) == old(reg.ViewOf(g)).(nowPlaying := None, nowPlayingChannelId := None,
                                                 nowPlayingMessageId := None)
  {
    var s := reg.states[g];
    var finished := s.nowPlaying;
    if finished.Some? {
      var _ := s.RecordPlay(finished.value);
    }
    s.nowPlaying := None;
    s.nowPlayingChannelId := None;
    s.nowPlayingMessageId := None;
  }

  method RefillThenStartNext(reg: MusicStates, g: int, voice: Voice, search: Search, pick: nat,
                             sourceOk: bool, playOk: bool, sent: Option<Message>)
    returns (v: Voice, raised: bool)
    requires reg.Valid() && pick < |PopularQueries|
    modifies reg, reg.states.Values
    ensures reg.Valid() && OnlyGuildChanged(reg, g)
    ensures AfterOutcome(reg.ViewOf(g), reg.playCounts.table, v, raised)
      == RefillThenStart(old(reg.ViewOf(g)), reg.playCounts.table, voice, search, pick, sourceOk, playOk, sent)
  {
    v := voice;
    var _ := reg.State(g);
    raised := RefillIfEmpty(reg, g, search, pick);
    if !raised {
      v := StartNextTrack(reg, g, voice, sourceOk, playOk, sent);
    }
  }

  /** The 24/7 auto-fill step of `_after_track_finished`. */
  method RefillIfEmpty(reg: MusicStates, g: int, search: Search, pick: nat) returns (raised: bool)
    requires reg.Valid() && pick < |PopularQueries| && g in reg.states
    modifies reg.states[g]
    ensures reg.Valid() && OnlyGuildChanged(reg, g)
    ensures var fill := Refill(old(reg.ViewOf(g)), reg.playCounts.table, search, pick);
      && reg.ViewOf(g) == old(reg.ViewOf(g)).(queue := old(reg.ViewOf(g)).queue + Entries(fill.added))
      && raised == fill.raised
  {
    raised := false;
    var s := reg.states[g];
    ghost var start := s.View();
    if s.mode247 && s.queue == [] {
      // `_play_most_popular_for_guild` looks up this same state object
      raised := FillFromPopular(s, search, pick);
    } else {
      assert start.queue + Entries([]) == start.queue;
    }
  }

  // ---------------------------------------------------------------- commands

  /** The voice client after `play` joined the author's channel: connect when absent, move when elsewhere. */
  function Joined(v: Voice, channel: int): (r: Voice)
    ensures r.Voice? && r.channelId == channel
    ensures v.Voice? ==> r == v.(channelId := channel)
  {
    if v.NoVoice? then Voice(channel, true, false, false)
    else if v.channelId != channel then v.(channelId := channel)
    else v
  }

  function QueuedReply(t: Track, position: nat): string {
    "Queued: **" + t.title + "** - " + t.artist + " (position " + NatToString(position) + ")"
  }

  datatype PlayOutcome = PlayOutcome(guild: GuildView, voice: Voice, reply: Option<string>, raised: bool)

  /** Whether `play` gets as far as the guild's state: the author is in voice, HTTP is up, a track was found. */
  predicate PlayReachesState(authorChannel: Option<int>, sessionReady: bool, found: Result<Option<Track>, string>) {
    authorChannel.Some? && sessionReady && found.Ok? && found.value.Some?
  }

  /** `play` in a guild, once the search for the query has answered `found`. */
  function PlayCommand(g: GuildView, authorChannel: Option<int>, voice: Voice, sessionReady: bool,
                       found: Result<Option<Track>, string>, channelId: int, messageId: Option<int>,
                       sourceOk: bool, playOk: bool, sent: Option<Message>): PlayOutcome
  {
    if authorChannel.None? then PlayOutcome(g, voice, Some("Join a voice channel first."), false)
    else
      var joined := Joined(voice, authorChannel.value);
      if !sessionReady then PlayOutcome(g, joined, Some("HTTP session is not ready."), false)
      else
        match found
        case Err(_) => PlayOutcome(g, joined, None, true)
        case Ok(None) => PlayOutcome(g, joined, Some("No result found for that query."), false)
        case Ok(Some(t)) => QueueTrack(g, joined, t, channelId, messageId, sourceOk, playOk, sent)
  }

  /** The end of `play` once a track was found: tag it with the request, append it, then start or report its place. */
  function QueueTrack(g: GuildView, joined: Voice, t: Track, channelId: int, messageId: Option<int>,
                      sourceOk: bool, playOk: bool, sent: Option<Message>): PlayOutcome
  {
    var track := if messageId.Some? then t.(requestChannelId := Some(channelId), requestMessageId := messageId) else t;
    var g1 := g.(textChannelId := Some(channelId), queue := g.queue + [Queued(track)]);
    if Busy(joined) || g1.nowPlaying.Some? then
      PlayOutcome(g1, joined, Some(QueuedReply(track, |g1.queue|)), false)
    else
      var o := StartNext(g1, joined, sourceOk, playOk, sent);
      PlayOutcome(o.guild, o.voice, None, false)
  }

  /**
    * A found track goes to the tail of the queue. When the voice client is busy or a track is
    * on, nothing starts and the reply gives the new queue length as the position; otherwise
    * playback starts from the head of the queue.
    */
  lemma PlayCommandEnqueues(g: GuildView, authorChannel: Option<int>, voice: Voice, sessionReady: bool,
                            t: Track, channelId: int, messageId: Option<int>,
                            sourceOk: bool, playOk: bool, sent: Option<Message>)
    requires authorChannel.Some? && sessionReady
    ensures var o := PlayCommand(g, authorChannel, voice, sessionReady, Ok(Some(t)), channelId, messageId,
                                 sourceOk, playOk, sent);
      var joined := Joined(voice, authorChannel.value);
      var added := if messageId.Some? then t.(requestChannelId := Some(channelId), requestMessageId := messageId) else t;
      && (Busy(joined) || g.nowPlaying.Some? ==>
            && o.guild.queue == g.queue + [Queued(added)]
            && o.guild.nowPlaying == g.nowPlaying
            && o.reply == Some(QueuedReply(added, |o.guild.queue|)))
      && (!Busy(joined) && Connected(joined) && g.nowPlaying.None? && sourceOk && playOk
            && (g.queue + [Queued(added)])[0].Queued? ==>
            && o.guild.nowPlaying.Some?
            && (g.queue + [Queued(added)])[0] == Queued(o.guild.nowPlaying.value)
            && o.guild.queue == (g.queue + [Queued(added)])[1..])
      && o.guild.textChannelId == Some(channelId)
  {
  }

  /** The `play` command; `guild` is None for a message outside a server. */
  method Play(reg: MusicStates, guild: Option<int>, authorChannel: Option<int>, voice: Voice, sessionReady: bool,
              search: Search, query: string, channelId: int, messageId: Option<int>,
              sourceOk: bool, playOk: bool, sent: Option<Message>)
    returns (v: Voice, reply: Option<string>, raised: bool)
    requires reg.Valid()
    modifies reg, reg.states.Values
    ensures reg.Valid()
    ensures guild.None? ==> reg.states == old(reg.states) && v == voice && reply == Some("Use this command in a server.")
    ensures guild.Some? ==>
      && OnlyGuildChanged(reg, guild.value)
      && (guild.value in reg.states <==> guild.value in old(reg.states)
                                         || PlayReachesState(authorChannel, sessionReady, search(query)))
      && PlayOutcome(reg.ViewOf(guild.value), v, reply, raised)
           == PlayCommand(old(reg.ViewOf(guild.value)), authorChannel, voice, sessionReady, search(query),
                          channelId, messageId, sourceOk, playOk, sent)
  {
    v, reply, raised := voice, None, false;
    if guild.None? {
      reply := Some("Use this command in a server.");
      return;
    }
    var g := guild.value;
    if authorChannel.None? {
      reply := Some("Join a voice channel first.");
      return;
    }
    v := Joined(voice, authorChannel.value);
    if !sessionReady {
      reply := Some("HTTP session is not ready.");
      return;
    }
    var found := search(query);
    if found.Err? {
      raised := true;
      return;
    }
    if found.value.None? {
      reply := Some("No result found for that query.");
      return;
    }
    v, reply := QueueFoundTrack(reg, g, v, found.value.value, channelId, messageId, sourceOk, playOk, sent);
  }

  method QueueFoundTrack(reg: MusicStates, g: int, voice: Voice, t: Track, channelId: int, messageId: Option<int>,
                         sourceOk: bool, playOk: bool, sent: Option<Message>)
    returns (v: Voice, reply: Option<string>)
    requires reg.Valid()
    modifies reg, reg.states.Values
    ensures reg.Valid() && OnlyGuildChanged(reg, g) && g in reg.states
    ensures PlayOutcome(reg.ViewOf(g), v, reply, false)
      == QueueTrack(old(reg.ViewOf(g)), voice, t, channelId, messageId, sourceOk, playOk, sent)
  {
    v, reply := voice, None;
    var track := t;
    var s := reg.State(g);
    s.textChannelId := Some(channelId);
    if messageId.Some? {
      track := track.(requestChannelId := Some(channelId), requestMessageId := messageId);
    }
    s.queue := s.queue + [Queued(track)];
    assert reg.ViewOf(g) == old(reg.ViewOf(g)).(textChannelId := Some(channelId),
                                                queue := old(reg.ViewOf(g)).queue + [Queued(track)]);
    if Busy(v) || s.nowPlaying.Some? {
      reply := Some(QueuedReply(track, |s.queue|));
      return;
    }
    v := StartNextTrack(reg, g, v, sourceOk, playOk, sent);
  }

  /** The `sortqueue` command for a guild; `raised` is the AttributeError of a bare id in the queue. */
  method SortQueue(reg: MusicStates, g: int) returns (reply: Option<string>, raised: bool)
    requires reg.Valid()
    modifies reg, reg.states.Values
    ensures reg.Valid() && OnlyGuildChanged(reg, g) && g in reg.states
    ensures |old(reg.ViewOf(g)).queue| < 2 ==> reg.ViewOf(g) == old(reg.ViewOf(g)) && !raised
    ensures old(reg.ViewOf(g)).queue == [] ==> reply == Some("Queue is empty.")
    ensures |old(reg.ViewOf(g)).queue| == 1 ==> reply == Some("Need at least 2 songs to sort.")
    ensures |old(reg.ViewOf(g)).queue| >= 2 ==>
      && raised == !AllTracks(old(reg.ViewOf(g)).queue)
      && reg.ViewOf(g) == old(reg.ViewOf(g)).(queue :=
           if raised then old(reg.ViewOf(g)).queue
           else SortedByPlayCount(old(reg.ViewOf(g)).queue, reg.playCounts.table))
      && (!raised ==> reply == Some("Queue sorted by play count! " + NatToString(|old(reg.ViewOf(g)).queue|)
                                    + " songs reordered."))
  {
    raised := false;
    var s := reg.State(g);
    if s.queue == [] {
      return Some("Queue is empty."), false;
    }
    if |s.queue| < 2 {
      return Some("Need at least 2 songs to sort."), false;
    }
    var ok := s.SortQueueByPlayCount();
    if !ok {
      return None, true;
    }
    SortedByPlayCountSpec(old(reg.ViewOf(g)).queue, reg.playCounts.table);
    assert |s.queue| == |multiset(s.queue)| == |old(reg.ViewOf(g)).queue|;
    reply := Some("Queue sorted by play count! " + NatToString(|s.queue|) + " songs reordered.");
  }

  /** The limit `popular` passes to `get_all_sorted`. */
  function PopularLimit(limit: int): (n: int)
    ensures n <= 20
    ensures limit <= 20 ==> n == limit
  {
    Min(limit, 20)
  }

  function PopularLine(i: nat, entry: (string, int)): string {
    NatToString(i) + ". `" + entry.0 + "` - " + IntToString(entry.1) + " plays"
  }

  /** One line per entry, numbered from 1 in rank order. */
  function NumberedLines(top: seq<(string, int)>): seq<string>
    decreases |top|
  {
    if top == [] then [] else NumberedLines(top[..|top| - 1]) + [PopularLine(|top|, top[|top| - 1])]
  }

  /** The lines `popular` sends: a heading, then the numbered entries. */
  function PopularLines(top: seq<(string, int)>): seq<string> {
    ["**Most Played Songs:**"] + NumberedLines(top)
  }

  /** Line `i` names the entry of rank `i + 1`, its id and its count; there is no other line. */
  lemma {:induction false} NumberedLinesSpec(top: seq<(string, int)>)
    ensures var lines := NumberedLines(top);
      && |lines| == |top|
      && forall i :: 0 <= i < |top| ==> lines[i] == PopularLine(i + 1, top[i])
    decreases |top|
  {
    if top != [] {
      var init := top[..|top| - 1];
      var last := PopularLine(|top|, top[|top| - 1]);
      NumberedLinesSpec(init);
      assert NumberedLines(top) == NumberedLines(init) + [last];
      forall i | 0 <= i < |top|
        ensures NumberedLines(top)[i] == PopularLine(i + 1, top[i])
      {
        if i < |init| {
          assert NumberedLines(top)[i] == NumberedLines(init)[i];
          assert top[i] == init[i];
        } else {
          assert NumberedLines(top)[i] == last;
        }
      }
    }
  }

  /** Line `i + 1` names the entry of rank `i + 1`, its id and its count; there is no other line. */
  lemma PopularLinesSpec(top: seq<(string, int)>)
    ensures var lines := PopularLines(top);
      && |lines| == |top| + 1
      && lines[0] == "**Most Played Songs:**"
      && forall i :: 0 <= i < |top| ==> lines[i + 1] == PopularLine(i + 1, top[i])
  {
    NumberedLinesSpec(top);
  }

  /** The loop of `popular` that builds its lines from the ranked entries. */
  method BuildPopularLines(top: seq<(string, int)>) returns (lines: seq<string>)
    ensures lines == PopularLines(top)
  {
    lines := ["**Most Played Songs:**"];
    var i := 0;
    while i < |top|
      invariant 0 <= i <= |top|
      invariant lines == PopularLines(top[..i])
    {
      assert top[..i + 1][..i] == top[..i];
      lines := lines + [PopularLine(i + 1, top[i])];
      i := i + 1;
    }
    assert top[..i] == top;
  }

  /** The `popular` command; None is the no-history reply. */
  method Popular(reg: MusicStates, g: int, limit: int) returns (lines: Option<seq<string>>)
    requires reg.Valid()
    modifies reg
    ensures reg.Valid() && OnlyGuildChanged(reg, g) && g in reg.states
    ensures reg.ViewOf(g) == old(reg.ViewOf(g))
    ensures var top := SortedItems(reg.playCounts.table, PopularLimit(limit));
      && (top == [] <==> lines == None)
      && (top != [] ==> lines == Some(PopularLines(top)))
  {
    var s := reg.State(g);
    var top := reg.playCounts.GetAllSorted(PopularLimit(limit));
    if top == [] {
      return None;
    }
    var out := BuildPopularLines(top);
    lines := Some(out);
  }

  /**
    * The cap of 20 holds only for a limit that is not negative: `min(limit, 20)` keeps a
    * negative limit, and Python's `[:limit]` then drops entries from the end instead of
    * keeping none, so a table of 25 ids with limit -1 lists 24 of them.
    */
  lemma PopularNegativeLimitExceedsCap()
    ensures var t := Table(KeysOf(25), CountsOf(25));
      WellFormed(t) && |SortedItems(t, PopularLimit(-1))| == 24
  {
    var t := Table(KeysOf(25), CountsOf(25));
    KeysOfDistinct(25);
    SortedItemsSpec(t, PopularLimit(-1));
    assert |Ranking.SortDesc(Items(t), Second)| == 25 by {
      Ranking.SortDescIsStableSort(Items(t), Second);
    }
  }

  /** Distinct keys "0", "1", ..., for the counterexample above. */
  function KeysOf(n: nat): (ks: seq<string>)
    ensures |ks| == n
    ensures forall i :: 0 <= i < n ==> ks[i] == NatToString(i)
  {
    seq(n, i requires 0 <= i < n => NatToString(i))
  }

  function CountsOf(n: nat): map<string, int> {
    map i | 0 <= i < n :: NatToString(i) := 1
  }

  lemma KeysOfDistinct(n: nat)
    ensures WellFormed(Table(KeysOf(n), CountsOf(n)))
  {
    var t := Table(KeysOf(n), CountsOf(n));
    forall i, j | 0 <= i < j < n
      ensures t.keys[i] != t.keys[j]
    {
      DigitsValueOfNatToString(i);
      DigitsValueOfNatToString(j);
    }
    forall k
      ensures k in t.counts <==> k in t.keys
    {
      if k in t.keys {
        var i :| 0 <= i < n && t.keys[i] == k;
        assert NatToString(i) in t.counts;
      }
    }
  }

  /** The corrected cap: a negative limit asks for nothing, so at most 20 entries are ever listed. */
  function CappedPopularLimit(limit: int): (n: int)
    ensures 0 <= n <= 20
    ensures 0 <= limit <= 20 ==> n == limit
  {
    Max(0, Min(limit, 20))
  }

  lemma CappedPopularIsAtMost20(t: Table, limit: int)
    ensures |SortedItems(t, CappedPopularLimit(limit))| <= 20
  {
    SortedItemsSpec(t, CappedPopularLimit(limit));
  }

  /** The `playcount` reply for a guild's state; Err is the AttributeError of a bare id at the head. */
  function PlayCountReply(g: GuildView, t: Table): Result<string, string> {
    if g.nowPlaying.Some? then
      var np := g.nowPlaying.value;
      Ok("**" + np.title + "** has been played **" + IntToString(Count(t, TrackId(np))) + "** times.")
    else if g.queue != [] then
      match g.queue[0]
      case BareId(_) => Err("AttributeError")
      case Queued(first) =>
        Ok("Next up: **" + first.title + "** - played **" + IntToString(Count(t, TrackId(first))) + "** times.")
    else Ok("Nothing is playing or queued.")
  }

  /** The `playcount` command: reads, and only creates the guild's state. */
  method PlayCount(reg: MusicStates, g: int) returns (reply: Result<string, string>)
    requires reg.Valid()
    modifies reg
    ensures reg.Valid() && OnlyGuildChanged(reg, g) && g in reg.states
    ensures reg.ViewOf(g) == old(reg.ViewOf(g))
    ensures reply == PlayCountReply(reg.ViewOf(g), reg.playCounts.table)
  {
    var s := reg.State(g);
    if s.nowPlaying.Some? {
      var count := s.GetPlayCount(s.nowPlaying.value);
      return Ok("**" + s.nowPlaying.value.title + "** has been played **" + IntToString(count) + "** times.");
    }
    if s.queue != [] {
      var first := s.queue[0];
      if first.BareId? {
        return Err("AttributeError");
      }
      var count := s.GetPlayCount(first.track);
      return Ok("Next up: **" + first.track.title + "** - played **" + IntToString(count) + "** times.");
    }
    reply := Ok("Nothing is playing or queued.");
  }

  /**
    * The Stop button of the now-playing message. With the bot in voice it empties the queue
    * and the now-playing slot, stops the current source, then either auto-fills (24/7) and
    * stays, or disconnects.
    */
  method ControlsStop(reg: MusicStates, g: int, guildKnown: bool, voice: Voice, search: Search, pick: nat)
    returns (v: Voice, reply: Option<string>, raised: bool)
    requires reg.Valid() && pick < |PopularQueries|
    modifies reg, reg.states.Values
    ensures reg.Valid() && OnlyGuildChanged(reg, g)
    ensures !guildKnown || !Connected(voice) ==>
      reg.states == old(reg.states) && v == voice && reply == Some("I am not in a voice channel.") && !raised
    ensures guildKnown && Connected(voice) ==>
      var cleared := old(reg.ViewOf(g)).(queue := [], nowPlaying := None);
      && g in reg.states
      && (!cleared.mode247 ==> reg.ViewOf(g) == cleared && v == NoVoice && reply == Some("Stopped and disconnected."))
      && (cleared.mode247 ==>
            var f := AutoFill(TopIds(reg.playCounts.table, 10), search, pick);
            && reg.ViewOf(g) == cleared.(queue := Entries(f.added))
            && v == Stopped(voice) && Connected(v) && raised == f.raised)
  {
    v, reply, raised := voice, None, false;
    if !guildKnown || !Connected(voice) {
      reply := Some("I am not in a voice channel.");
      return;
    }
    v, reply, raised := StopConnected(reg, g, voice, search, pick);
  }

  /** The Stop button once the bot is known to be in a voice channel of the guild. */
  method StopConnected(reg: MusicStates, g: int, voice: Voice, search: Search, pick: nat)
    returns (v: Voice, reply: Option<string>, raised: bool)
    requires reg.Valid() && pick < |PopularQueries| && Connected(voice)
    modifies reg, reg.states.Values
    ensures reg.Valid() && OnlyGuildChanged(reg, g) && g in reg.states
    ensures var cleared := old(reg.ViewOf(g)).(queue := [], nowPlaying := None);
      && (!cleared.mode247 ==> reg.ViewOf(g) == cleared && v == NoVoice && reply == Some("Stopped and disconnected."))
      && (cleared.mode247 ==>
            var f := AutoFill(TopIds(reg.playCounts.table, 10), search, pick);
            && reg.ViewOf(g) == cleared.(queue := Entries(f.added))
            && v == Stopped(voice) && Connected(v) && raised == f.raised)
  {
    v, reply, raised := voice, None, false;
    var s := reg.State(g);
    assert s.View() == old(reg.ViewOf(g));
    raised := ClearForStop(s, search, pick);
    assert reg.ViewOf(g) == s.View();
    if Busy(voice) {
      v := Stopped(voice);
    }
    if s.mode247 {
      if !raised {
        reply := Some("Stopped current playback. 24/7 is enabled, so I will stay connected.");
      }
      return;
    }
    v := NoVoice;
    reply := Some("Stopped and disconnected.");
  }

  /**
    * What the Stop button does to the guild's state: empty the queue and the now-playing slot,
    * then auto-fill when 24/7 is on.
    */
  method ClearForStop(s: GuildMusicState, search: Search, pick: nat) returns (raised: bool)
    requires pick < |PopularQueries|
    modifies s
    ensures var cleared := old(s.View()).(queue := [], nowPlaying := None);
      var f := AutoFill(TopIds(s.playCounts.table, 10), search, pick);
      && (!cleared.mode247 ==> s.View() == cleared && !raised)
      && (cleared.mode247 ==> s.View() == cleared.(queue := Entries(f.added)) && raised == f.raised)
  {
    s.queue := [];
    s.nowPlaying := None;
    raised := false;
    if s.mode247 {
      ghost var f := AutoFill(TopIds(s.playCounts.table, 10), search, pick);
      assert [] + Entries(f.added) == Entries(f.added);
      // `_play_most_popular_for_guild` looks up this same state object
      raised := FillFromPopular(s, search, pick);
    }
  }
}
