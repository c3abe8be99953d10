/**
  * What the Python cogs share: the bot's `music_states` dictionary with the get-or-create
  * `_state` helper (defined alike in cogs/music/play.py and cogs/music/twentyfourseven.py),
  * and the guild's voice client reduced to the status flags the cogs test.
  */
module Guilds {
  import opened Wrappers
  import opened MusicState

  /**
    * `guild.voice_client`: none, or a client in a channel with its `is_connected()`,
    * `is_playing()` and `is_paused()` answers.
    */
  datatype Voice = NoVoice | Voice(channelId: int, connected: bool, playing: bool, paused: bool)

  predicate Connected(v: Voice) { v.Voice? && v.connected }

  /** `is_playing() or is_paused()`. */
  predicate Busy(v: Voice) { v.Voice? && (v.playing || v.paused) }

  /** `voice_client.stop()`: the current source ends; the client stays where it is. */
  function Stopped(v: Voice): (r: Voice)
    ensures !Busy(r) && Connected(r) == Connected(v)
  {
    if v.Voice? then v.(playing := false, paused := false) else v
  }

  /** A message the bot sent: its channel and its id. */
  datatype Message = Message(channelId: int, id: int)

  /** `bot.music_states`: one state object per guild, all sharing the play-count store. */
  class MusicStates {
    var states: map<int, GuildMusicState>
    const playCounts: PlayCountManager

    ghost predicate Valid()
      reads this, playCounts
    {
      && playCounts.Valid()
      && (forall k :: k in states ==> states[k].playCounts == playCounts)
      && (forall a, b :: a in states && b in states && a != b ==> states[a] != states[b])
    }

    /** The state of guild `g` as a value; a guild without an entry looks like a new one. */
    function ViewOf(g: int): GuildView
      reads this, states.Values
    {
      if g in states then states[g].View() else InitialView
    }

    constructor (playCounts: PlayCountManager)
      requires playCounts.Valid()
      ensures Valid() && states == map[] && this.playCounts == playCounts
    {
      states := map[];
      this.playCounts := playCounts;
    }

    /** `_state(guild_id)`: the guild's state, created empty on first use and the same object ever after. */
    method State(g: int) returns (s: GuildMusicState)
      requires Valid()
      modifies this
      ensures Valid()
      ensures g in states && s == states[g] && s.playCounts == playCounts
      ensures g in old(states) ==> states == old(states)
      ensures g !in old(states) ==> fresh(s) && states == old(states)[g := s] && s.View() == InitialView
    {
      if g !in states {
        s := new GuildMusicState(playCounts);
        states := states[g := s];
      } else {
        s := states[g];
      }
    }
  }

  /**
    * Between the two states only guild `g` may have changed: every existing entry keeps its
    * object and every other guild's state its contents; at most `g` gained an entry, and the
    * map is the same one when `g` already had an entry.
    */
  twostate predicate OnlyGuildChanged(reg: MusicStates, g: int)
    reads reg, reg.states.Values
  {
    && (forall k :: k in old(reg.states) ==> k in reg.states && reg.states[k] == old(reg.states[k]))
    && (forall k :: k in reg.states ==> k in old(reg.states) || k == g)
    && (g in old(reg.states) ==> reg.states == old(reg.states))
    && (forall k :: k in old(reg.states) && k != g ==> reg.states[k].View() == old(reg.states[k].View()))
  }
}
