/**
  * The 24/7 cog of the Python bot (cogs/music/twentyfourseven.py): the `247` toggle, the
  * class-level set of guilds in 24/7 mode, and the auto-play it triggers when the queue runs
  * dry. Its auto-play queues the top play-count ids themselves, as bare strings, and hands
  * over to the playback cog's `_start_next_track`; whether the playback cog is loaded is the
  * flag `loaded`.
  */
module TwentyFourSeven {
  import opened Wrappers
  import opened MusicState
  import opened Guilds
  import opened PlayCog

  /** The queue entries `state.queue.append(track)` adds for each id: the id strings themselves. */
  function BareIds(ids: seq<string>): (es: seq<QueueEntry>)
    ensures |es| == |ids|
    ensures forall i :: 0 <= i < |es| ==> es[i] == BareId(ids[i])
  {
    seq(|ids|, i requires 0 <= i < |ids| => BareId(ids[i]))
  }

  /**
    * `_play_most_popular` once the playback cog is found: only in 24/7 mode and with a
    * connected voice client, queue the ten top ids and start playback if idle.
    */
  function AutoPlay(g: GuildView, t: Table, v: Voice, sourceOk: bool, playOk: bool, sent: Option<Message>): Outcome {
    if !g.mode247 || !Connected(v) then Outcome(g, v)
    else
      var g1 := g.(queue := g.queue + BareIds(TopIds(t, 10)));
      if !Busy(v) && g1.nowPlaying.None? then StartNext(g1, v, sourceOk, playOk, sent) else Outcome(g1, v)
  }

  /** Auto-play never disconnects and never leaves 24/7 mode, and it only ever adds ids to the tail of the queue or starts the head. */
  lemma AutoPlayKeepsConnection(g: GuildView, t: Table, v: Voice, sourceOk: bool, playOk: bool, sent: Option<Message>)
    ensures var o := AutoPlay(g, t, v, sourceOk, playOk, sent);
      && Connected(o.voice) == Connected(v)
      && o.guild.mode247 == g.mode247
      && (o.guild.queue == g.queue + BareIds(TopIds(t, 10))
          || o.guild.queue == (g.queue + BareIds(TopIds(t, 10)))[1..]
          || o.guild.queue == g.queue)
  {
  }

  /**
    * With a connected idle voice client, an empty queue and a play history, 24/7 auto-play
    * starts nothing: the head of the queue is a bare id, which is dropped without playing,
    * and the other ids stay queued.
    */
  lemma AutoPlayStartsNothing(g: GuildView, t: Table, v: Voice, sourceOk: bool, playOk: bool, sent: Option<Message>)
    requires g.mode247 && Connected(v) && !Busy(v) && g.nowPlaying.None? && g.queue == []
    requires TopIds(t, 10) != []
    ensures var o := AutoPlay(g, t, v, sourceOk, playOk, sent);
      && o.guild.nowPlaying == None
      && o.guild.queue == BareIds(TopIds(t, 10))[1..]
      && o.voice == v
  {
    var ids := BareIds(TopIds(t, 10));
    assert g.queue + ids == ids;
  }

  /** A queue holding only bare ids never plays anything, however often the next track is started. */
  lemma {:induction false} BareQueueNeverPlays(g: GuildView, v: Voice, n: nat)
    requires forall i :: 0 <= i < |g.queue| ==> g.queue[i].BareId?
    ensures StartTimes(g, v, n).guild.nowPlaying == None
    ensures StartTimes(g, v, n).voice == v
    decreases n
  {
    var o := StartNext(g, v, true, true, None);
    assert o.guild.queue == [] || o.guild.queue == g.queue[1..] || o.guild.queue == g.queue;
    if n > 0 {
      BareQueueNeverPlays(o.guild, o.voice, n - 1);
    }
  }

  /**
    * The auto-play as evidently intended: each of the top ids resolved to a track by a
    * catalogue search, as the playback cog's own 24/7 auto-fill does, and only the tracks found queued.
    */
  function AutoPlayResolved(g: GuildView, t: Table, v: Voice, search: Search,
                            sourceOk: bool, playOk: bool, sent: Option<Message>): Outcome {
    if !g.mode247 || !Connected(v) then Outcome(g, v)
    else
      var found := FillFromIds(TopIds(t, 10), search).added;
      var g1 := g.(queue := g.queue + Entries(found));
      if !Busy(v) && g1.nowPlaying.None? then StartNext(g1, v, sourceOk, playOk, sent) else Outcome(g1, v)
  }

  /** Resolved, the first track found for the top ids does start when the voice client is idle and playback works. */
  lemma AutoPlayResolvedStarts(g: GuildView, t: Table, v: Voice, search: Search, sent: Option<Message>)
    requires g.mode247 && Connected(v) && !Busy(v) && g.nowPlaying.None? && g.queue == []
    requires FillFromIds(TopIds(t, 10), search).added != []
    ensures var o := AutoPlayResolved(g, t, v, search, true, true, sent);
      var found := FillFromIds(TopIds(t, 10), search).added;
      && o.guild.nowPlaying == Some(found[0])
      && o.guild.queue == Entries(found[1..])
      && o.voice.playing
  {
    var found := FillFromIds(TopIds(t, 10), search).added;
    assert g.queue + Entries(found) == Entries(found);
    assert Entries(found)[1..] == Entries(found[1..]);
  }

  datatype ToggleOutcome = ToggleOutcome(enabled: bool, guild: GuildView, voice: Voice, reply: string)

  const DisabledReply := "24/7 mode disabled. Bot will leave when queue is empty."
  const EnabledReply := "24/7 mode enabled! Bot will stay in voice channel and auto-play most popular songs when queue is empty."

  /**
    * The `247` command in a guild whose author is in voice channel `authorChannel`;
    * `enabled` is whether the guild was in the 24/7 set.
    */
  function Toggle(enabled: bool, g: GuildView, authorChannel: int, channelId: int, v: Voice, t: Table,
                  loaded: bool, sourceOk: bool, playOk: bool, sent: Option<Message>): ToggleOutcome
  {
    if enabled then Disable(g, v)
    else Enable(g, authorChannel, channelId, v, t, loaded, sourceOk, playOk, sent)
  }

  function Disable(g: GuildView, v: Voice): ToggleOutcome {
    ToggleOutcome(false, g.(mode247 := false, voiceChannelId := None), if Connected(v) then NoVoice else v, DisabledReply)
  }

  function Enable(g: GuildView, authorChannel: int, channelId: int, v: Voice, t: Table,
                  loaded: bool, sourceOk: bool, playOk: bool, sent: Option<Message>): ToggleOutcome
  {
    var g1 := g.(mode247 := true, voiceChannelId := Some(authorChannel), textChannelId := Some(channelId));
    var joined := Joined(v, authorChannel);
    if !Busy(joined) && loaded then
      var o := AutoPlay(g1, t, joined, sourceOk, playOk, sent);
      ToggleOutcome(true, o.guild, o.voice, EnabledReply)
    else ToggleOutcome(true, g1, joined, EnabledReply)
  }

  /**
    * Toggling flips the guild's membership of the 24/7 set and leaves the state's
    * `mode_247` equal to it. Disabling forgets the voice channel and disconnects; enabling
    * remembers the author's channel and the command's channel.
    */
  lemma ToggleSyncsMode(enabled: bool, g: GuildView, authorChannel: int, channelId: int, v: Voice, t: Table,
                        loaded: bool, sourceOk: bool, playOk: bool, sent: Option<Message>)
    ensures var r := Toggle(enabled, g, authorChannel, channelId, v, t, loaded, sourceOk, playOk, sent);
      && r.enabled == !enabled
      && r.guild.mode247 == r.enabled
      && (!r.enabled ==> r.guild.voiceChannelId == None && !Connected(r.voice) && r.reply == DisabledReply)
      && (r.enabled ==> r.guild.voiceChannelId == Some(authorChannel) && r.guild.textChannelId == Some(channelId)
                        && r.voice.Voice? && r.voice.channelId == authorChannel && r.reply == EnabledReply)
  {
    if !enabled {
      var g1 := g.(mode247 := true, voiceChannelId := Some(authorChannel), textChannelId := Some(channelId));
      AutoPlayKeepsConnection(g1, t, Joined(v, authorChannel), sourceOk, playOk, sent);
    }
  }

  /**
    * Toggling twice, in either order, restores the guild's membership of the 24/7 set and
    * leaves `mode_247` equal to it, even when the flag disagreed with the set beforehand.
    * Ending disabled, the voice channel is forgotten and the bot is out of voice; ending
    * enabled, both channels are remembered and the bot is in the author's channel.
    */
  lemma ToggleTwice(enabled: bool, g: GuildView, authorChannel: int, channelId: int, v: Voice, t: Table,
                    loaded: bool, sourceOk: bool, playOk: bool, sent: Option<Message>)
    ensures var r1 := Toggle(enabled, g, authorChannel, channelId, v, t, loaded, sourceOk, playOk, sent);
      var r2 := Toggle(r1.enabled, r1.guild, authorChannel, channelId, r1.voice, t, loaded, sourceOk, playOk, sent);
      && r2.enabled == enabled && r2.guild.mode247 == enabled
      && (!enabled ==> r2.guild.voiceChannelId == None && !Connected(r2.voice)
                       && r2.guild.textChannelId == Some(channelId))
      && (enabled ==> r2.guild.voiceChannelId == Some(authorChannel) && r2.guild.textChannelId == Some(channelId)
                      && r2.voice.Voice? && r2.voice.channelId == authorChannel)
  {
    var r1 := Toggle(enabled, g, authorChannel, channelId, v, t, loaded, sourceOk, playOk, sent);
    ToggleSyncsMode(enabled, g, authorChannel, channelId, v, t, loaded, sourceOk, playOk, sent);
    ToggleSyncsMode(r1.enabled, r1.guild, authorChannel, channelId, r1.voice, t, loaded, sourceOk, playOk, sent);
  }

  /**
    * `TwentyFourSevenCog`, whose `_247_guilds` set lives on the class. Reloading the extension
    * runs the module again, so the new class starts with an empty set while every guild's
    * state keeps its `mode_247`: the flag and the set can disagree from then on.
    */
  class TwentyFourSevenCog {
    var guilds247: set<int>
    const reg: MusicStates

    ghost predicate Valid()
      reads this, reg, reg.playCounts
    {
      reg.Valid()
    }

    constructor (reg: MusicStates)
      requires reg.Valid()
      ensures Valid() && this.reg == reg && guilds247 == {}
    {
      guilds247 := {};
      this.reg := reg;
    }

    /** `_play_most_popular`. Nothing happens, not even a state is created, without the playback cog. */
    method PlayMostPopular(g: int, voice: Voice, loaded: bool, sourceOk: bool, playOk: bool, sent: Option<Message>)
      returns (v: Voice)
      requires Valid()
      modifies reg, reg.states.Values
      ensures Valid() && OnlyGuildChanged(reg, g)
      ensures !loaded ==> reg.states == old(reg.states) && reg.ViewOf(g) == old(reg.ViewOf(g)) && v == voice
      ensures loaded ==>
        && g in reg.states
        && Outcome(reg.ViewOf(g), v) == AutoPlay(old(reg.ViewOf(g)), reg.playCounts.table, voice, sourceOk, playOk, sent)
    {
      v := voice;
      if !loaded {
        return;
      }
      var s := reg.State(g);
      if !s.mode247 {
        return;
      }
      var ids := s.GetMostPlayedTracks(10);
      if !Connected(voice) {
        return;
      }
      var added := QueueIds(ids);
      s.queue := s.queue + added;
      assert reg.ViewOf(g) == old(reg.ViewOf(g)).(queue := old(reg.ViewOf(g)).queue + BareIds(ids));
      if !Busy(voice) && s.nowPlaying.None? {
        v := StartNextTrack(reg, g, voice, sourceOk, playOk, sent);
      }
    }

    /** The `for track in popular_tracks` loop, collecting what it appends. */
    static method QueueIds(ids: seq<string>) returns (added: seq<QueueEntry>)
      ensures added == BareIds(ids)
    {
      added := [];
      for i := 0 to |ids|
        invariant added == BareIds(ids[..i])
      {
        added := added + [BareId(ids[i])];
      }
      assert ids[..|ids|] == ids;
    }

    /** The `247` command. */
    method TwentyFourSevenCommand(guild: Option<int>, authorChannel: Option<int>, channelId: int, voice: Voice,
                                  loaded: bool, sourceOk: bool, playOk: bool, sent: Option<Message>)
      returns (v: Voice, reply: string)
      requires Valid()
      modifies this, reg, reg.states.Values
      ensures Valid()
      ensures guild.None? || authorChannel.None? ==>
        && guilds247 == old(guilds247) && reg.states == old(reg.states) && v == voice
        && reply == (if guild.None? then "Use this command in a server." else "Join a voice channel first.")
      ensures guild.Some? && authorChannel.Some? ==>
        var g := guild.value;
        && OnlyGuildChanged(reg, g) && g in reg.states
        && guilds247 == (if g in old(guilds247) then old(guilds247) - {g} else old(guilds247) + {g})
        && ToggleOutcome(g in guilds247, reg.ViewOf(g), v, reply)
             == Toggle(g in old(guilds247), old(reg.ViewOf(g)), authorChannel.value, channelId, voice,
                       reg.playCounts.table, loaded, sourceOk, playOk, sent)
    {
      v := voice;
      if guild.None? {
        reply := "Use this command in a server.";
        return;
      }
      if authorChannel.None? {
        reply := "Join a voice channel first.";
        return;
      }
      v, reply := ToggleIn(guild.value, authorChannel.value, channelId, voice, loaded, sourceOk, playOk, sent);
    }

    /** The `247` command once the guild and the author's channel are known. */
    method ToggleIn(g: int, authorChannel: int, channelId: int, voice: Voice,
                    loaded: bool, sourceOk: bool, playOk: bool, sent: Option<Message>)
      returns (v: Voice, reply: string)
      requires Valid()
      modifies this, reg, reg.states.Values
      ensures Valid() && OnlyGuildChanged(reg, g) && g in reg.states
      ensures guilds247 == (if g in old(guilds247) then old(guilds247) - {g} else old(guilds247) + {g})
      ensures ToggleOutcome(g in guilds247, reg.ViewOf(g), v, reply)
           == Toggle(g in old(guilds247), old(reg.ViewOf(g)), authorChannel, channelId, voice,
                     reg.playCounts.table, loaded, sourceOk, playOk, sent)
    {
      if g in guilds247 {
        guilds247 := guilds247 - {g};
        v, reply := DisableIn(g, voice);
      } else {
        guilds247 := guilds247 + {g};
        v, reply := EnableIn(g, authorChannel, channelId, voice, loaded, sourceOk, playOk, sent);
      }
    }

    /** The disabling half of `247`, after the guild left the set. */
    method DisableIn(g: int, voice: Voice) returns (v: Voice, reply: string)
      requires Valid()
      modifies reg, reg.states.Values
      ensures Valid() && OnlyGuildChanged(reg, g) && g in reg.states
      ensures ToggleOutcome(false, reg.ViewOf(g), v, reply) == Disable(old(reg.ViewOf(g)), voice)
    {
      var s := reg.State(g);
      s.mode247 := false;
      s.voiceChannelId := None;
      v := voice;
      if Connected(v) {
        v := NoVoice;
      }
      reply := DisabledReply;
    }

    /** The enabling half of `247`, after the guild joined the set. */
    method EnableIn(g: int, authorChannel: int, channelId: int, voice: Voice,
                    loaded: bool, sourceOk: bool, playOk: bool, sent: Option<Message>)
      returns (v: Voice, reply: string)
      requires Valid()
      modifies reg, reg.states.Values
      ensures Valid() && OnlyGuildChanged(reg, g) && g in reg.states
      ensures ToggleOutcome(true, reg.ViewOf(g), v, reply)
        == Enable(old(reg.ViewOf(g)), authorChannel, channelId, voice, reg.playCounts.table, loaded, sourceOk, playOk, sent)
    {
      var s := reg.State(g);
      s.mode247 := true;
      s.voiceChannelId := Some(authorChannel);
      s.textChannelId := Some(channelId);
      assert reg.ViewOf(g) == old(reg.ViewOf(g)).(mode247 := true, voiceChannelId := Some(authorChannel),
                                                  textChannelId := Some(channelId));
      v := Joined(voice, authorChannel);
      reply := EnabledReply;
      if !Busy(v) {
        v := PlayMostPopular(g, v, loaded, sourceOk, playOk, sent);
      }
    }

    /**
      * `on_voice_state_update`: when the last listener leaves a 24/7 guild's channel and
      * nothing is queued or playing, auto-play; the bot itself stays.
      */
    method OnVoiceStateUpdate(memberIsBot: bool, g: int, voice: Voice, listeners: nat,
                              loaded: bool, sourceOk: bool, playOk: bool, sent: Option<Message>)
      returns (v: Voice)
      requires Valid()
      modifies reg, reg.states.Values
      ensures Valid() && OnlyGuildChanged(reg, g)
      ensures Connected(v) == Connected(voice)
      ensures memberIsBot || g !in guilds247 || !Connected(voice) || listeners > 0 ==>
        reg.states == old(reg.states) && v == voice
      ensures !memberIsBot && g in guilds247 && Connected(voice) && listeners == 0 ==>
        && g in reg.states
        && (old(reg.ViewOf(g)).queue == [] && old(reg.ViewOf(g)).nowPlaying.None? && loaded ==>
              Outcome(reg.ViewOf(g), v) == AutoPlay(old(reg.ViewOf(g)), reg.playCounts.table, voice, sourceOk, playOk, sent))
        && (old(reg.ViewOf(g)).queue != [] || old(reg.ViewOf(g)).nowPlaying.Some? || !loaded ==>
              reg.ViewOf(g) == old(reg.ViewOf(g)) && v == voice)
    {
      v := voice;
      if memberIsBot || g !in guilds247 || !Connected(voice) || listeners > 0 {
        return;
      }
      var s := reg.State(g);
      if s.queue == [] && s.nowPlaying.None? {
        v := PlayMostPopular(g, voice, loaded, sourceOk, playOk, sent);
        AutoPlayKeepsConnection(old(reg.ViewOf(g)), reg.playCounts.table, voice, sourceOk, playOk, sent);
      }
    }

    /** `handle_track_finished`: in a 24/7 guild with a connected client, auto-play once the queue is empty. */
    method HandleTrackFinished(g: int, voice: Voice, loaded: bool, sourceOk: bool, playOk: bool, sent: Option<Message>)
      returns (v: Voice)
      requires Valid()
      modifies reg, reg.states.Values
      ensures Valid() && OnlyGuildChanged(reg, g)
      ensures Connected(v) == Connected(voice)
      ensures g !in guilds247 ==> reg.states == old(reg.states) && v == voice
      ensures g in guilds247 ==>
        && g in reg.states
        && (Connected(voice) && old(reg.ViewOf(g)).queue == [] && loaded ==>
              Outcome(reg.ViewOf(g), v) == AutoPlay(old(reg.ViewOf(g)), reg.playCounts.table, voice, sourceOk, playOk, sent))
        && (!Connected(voice) || old(reg.ViewOf(g)).queue != [] || !loaded ==>
              reg.ViewOf(g) == old(reg.ViewOf(g)) && v == voice)
    {
      v := voice;
      if g !in guilds247 {
        return;
      }
      var s := reg.State(g);
      if !Connected(voice) {
        return;
      }
      if s.queue == [] {
        v := PlayMostPopular(g, voice, loaded, sourceOk, playOk, sent);
        AutoPlayKeepsConnection(old(reg.ViewOf(g)), reg.playCounts.table, voice, sourceOk, playOk, sent);
      }
    }
  }
}
