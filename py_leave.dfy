/**
  * The `leave` command of the Python bot (cogs/music/leave.py). A guild in 24/7 mode is
  * refused; otherwise an existing state is emptied and a connected bot disconnects.
  */
module LeaveCog {
  import opened Wrappers
  import opened MusicState
  import opened Guilds

  datatype LeaveOutcome = LeaveOutcome(guild: GuildView, voice: Voice, reply: string)

  const RefusedReply := "24/7 is enabled. Disable it with `247` first."

  /** `leave` in a guild; `known` is whether the guild has a state (none is created). */
  function Leave(known: bool, g: GuildView, v: Voice): LeaveOutcome {
    if known && g.mode247 then LeaveOutcome(g, v, RefusedReply)
    else
      var g1 := if known then g.(queue := [], nowPlaying := None) else g;
      if !Connected(v) then LeaveOutcome(g1, v, "I am not in a voice channel.")
      else LeaveOutcome(g1, NoVoice, "Disconnected.")
  }

  /**
    * A 24/7 guild is left alone entirely; any other guild ends with nothing queued or
    * playing and the bot out of voice, and it is told whether it had been connected.
    */
  lemma LeaveSpec(known: bool, g: GuildView, v: Voice)
    ensures var r := Leave(known, g, v);
      && (known && g.mode247 ==> r == LeaveOutcome(g, v, RefusedReply))
      && (!(known && g.mode247) ==>
            && !Connected(r.voice)
            && (known ==> r.guild == g.(queue := [], nowPlaying := None))
            && (!known ==> r.guild == g)
            && (r.reply == "Disconnected." <==> Connected(v))
            && (Connected(v) ==> r.voice == NoVoice)
            && (!Connected(v) ==> r.voice == v))
  {
  }

  method LeaveCommand(reg: MusicStates, guild: Option<int>, voice: Voice) returns (v: Voice, reply: string)
    requires reg.Valid()
    modifies reg.states.Values
    ensures reg.Valid() && reg.states == old(reg.states)
    ensures guild.None? ==> (forall k :: reg.ViewOf(k) == old(reg.ViewOf(k))) && v == voice && reply == "Use this command in a server."
    ensures guild.Some? ==>
      && OnlyGuildChanged(reg, guild.value)
      && LeaveOutcome(reg.ViewOf(guild.value), v, reply)
           == Leave(guild.value in reg.states, old(reg.ViewOf(guild.value)), voice)
  {
    v := voice;
    if guild.None? {
      reply := "Use this command in a server.";
      return;
    }
    var g := guild.value;
    if g in reg.states && reg.states[g].mode247 {
      reply := RefusedReply;
      return;
    }
    if g in reg.states {
      var s := reg.states[g];
      s.queue := [];
      s.nowPlaying := None;
    }
    if !Connected(voice) {
      reply := "I am not in a voice channel.";
      return;
    }
    v := NoVoice;
    reply := "Disconnected.";
  }
}
