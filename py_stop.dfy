/**
  * The `stop` command of the Python bot (cogs/music/stop.py). It does not create a guild
  * state: an existing one is emptied, and a connected bot either stays (24/7, refilled
  * through the playback cog when that cog is loaded) or disconnects.
  */
module StopCog {
  import opened Wrappers
  import opened MusicState
  import opened Guilds
  import opened PlayCog

  datatype StopOutcome = StopOutcome(guild: GuildView, voice: Voice, reply: Option<string>, raised: bool)

  const StayedReply := "Stopped current playback. 24/7 is enabled, so I stayed connected."
  const StoppedReply := "Stopped playback and cleared queue."

  /**
    * `stop` in a guild; `known` is whether the guild has a state. Cancelling an unfinished
    * worker task is not observable in the state beyond its being dropped.
    */
  function Stop(known: bool, g: GuildView, v: Voice, t: Table, loaded: bool, search: Search, pick: nat): StopOutcome
    requires pick < |PopularQueries|
  {
    var g1 := if known then g.(queue := [], nowPlaying := None, workerTask := None) else g;
    if !Connected(v) then StopOutcome(g1, v, Some(StoppedReply), false)
    else if known && g1.mode247 then
      var fill := if loaded then AutoFill(TopIds(t, 10), search, pick) else Fill([], false);
      StopOutcome(g1.(queue := Entries(fill.added)), Stopped(v), if fill.raised then None else Some(StayedReply), fill.raised)
    else StopOutcome(g1, NoVoice, Some(StoppedReply), false)
  }

  /**
    * A connected bot leaves voice exactly when the guild is not in 24/7 mode; otherwise its
    * current source is stopped and it stays. A known guild ends with nothing playing, no
    * worker task, and a queue that is empty or, in 24/7 mode, holds at most five refilled tracks.
    */
  lemma StopSpec(known: bool, g: GuildView, v: Voice, t: Table, loaded: bool, search: Search, pick: nat)
    requires pick < |PopularQueries|
    ensures var r := Stop(known, g, v, t, loaded, search, pick);
      && (!Connected(v) ==> r.voice == v && r.reply == Some(StoppedReply))
      && (Connected(v) ==> (r.voice == NoVoice <==> !(known && g.mode247)))
      && (Connected(v) && known && g.mode247 ==> Connected(r.voice) && !Busy(r.voice))
      && (known ==> r.guild.nowPlaying == None && r.guild.workerTask == None && |r.guild.queue| <= 5)
      && (known && !(g.mode247 && Connected(v) && loaded) ==> r.guild.queue == [])
      && (!known ==> r.guild == g)
  {
    AutoFillSpec(TopIds(t, 10), search, pick);
  }

  method StopCommand(reg: MusicStates, guild: Option<int>, voice: Voice, loaded: bool, search: Search, pick: nat)
    returns (v: Voice, reply: Option<string>, raised: bool)
    requires reg.Valid() && pick < |PopularQueries|
    modifies reg, reg.states.Values
    ensures reg.Valid()
    ensures guild.None? ==> reg.states == old(reg.states) && v == voice && reply == Some("Use this command in a server.")
    ensures guild.Some? ==>
      && OnlyGuildChanged(reg, guild.value)
      && reg.states.Keys == old(reg.states.Keys)
      && StopOutcome(reg.ViewOf(guild.value), v, reply, raised)
           == Stop(guild.value in old(reg.states), old(reg.ViewOf(guild.value)), voice, reg.playCounts.table,
                   loaded, search, pick)
  {
    v, reply, raised := voice, None, false;
    if guild.None? {
      reply := Some("Use this command in a server.");
      return;
    }
    var g := guild.value;
    var known := g in reg.states;
    if known {
      var s := reg.states[g];
      s.queue := [];
      s.nowPlaying := None;
      s.workerTask := None;
    }
    if Connected(voice) {
      v := Stopped(voice);
      if known && reg.states[g].mode247 {
        if loaded {
          assert reg.ViewOf(g) == old(reg.ViewOf(g)).(queue := [], nowPlaying := None, workerTask := None);
          raised := PlayMostPopularForGuild(reg, g, search, pick);
          assert [] + Entries(AutoFill(TopIds(reg.playCounts.table, 10), search, pick).added)
            == Entries(AutoFill(TopIds(reg.playCounts.table, 10), search, pick).added);
          if raised {
            return;
          }
        }
        reply := Some(StayedReply);
        return;
      }
      v := NoVoice;
    }
    reply := Some(StoppedReply);
  }
}
