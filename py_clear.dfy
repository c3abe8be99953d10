/** The `clear` command of the Python bot (cogs/music/clear.py): empties an existing guild's queue. */
module ClearCog {
  import opened Wrappers
  import opened Text
  import opened MusicState
  import opened Guilds

  /** `clear` in a guild; `known` is whether the guild has a state (none is created). */
  function Clear(known: bool, g: GuildView): (GuildView, string) {
    if !known || g.queue == [] then (g, "Queue is already empty.")
    else (g.(queue := []), "Cleared " + NatToString(|g.queue|) + " queued song(s).")
  }

  /**
    * Only the queue changes, and only to empty; the current track keeps playing. The reply
    * counts exactly the entries removed.
    */
  lemma ClearSpec(known: bool, g: GuildView)
    ensures var (g1, reply) := Clear(known, g);
      && g1 == g.(queue := if known then [] else g.queue)
      && (known && g.queue != [] <==> reply != "Queue is already empty.")
      && (known && g.queue != [] ==> reply == "Cleared " + NatToString(|g.queue|) + " queued song(s).")
  {
    if known && g.queue != [] {
      var reply := "Cleared " + NatToString(|g.queue|) + " queued song(s).";
      assert reply[0] != "Queue is already empty."[0];
    }
  }

  method ClearCommand(reg: MusicStates, guild: Option<int>) returns (reply: string)
    requires reg.Valid()
    modifies reg.states.Values
    ensures reg.Valid() && reg.states == old(reg.states)
    ensures guild.None? ==> (forall k :: reg.ViewOf(k) == old(reg.ViewOf(k))) && reply == "Queue is already empty."
    ensures guild.Some? ==>
      && OnlyGuildChanged(reg, guild.value)
      && (reg.ViewOf(guild.value), reply) == Clear(guild.value in reg.states, old(reg.ViewOf(guild.value)))
  {
    if guild.None? {
      return "Queue is already empty.";
    }
    var g := guild.value;
    if g !in reg.states || reg.states[g].queue == [] {
      return "Queue is already empty.";
    }
    var s := reg.states[g];
    var count := |s.queue|;
    s.queue := [];
    reply := "Cleared " + NatToString(count) + " queued song(s).";
  }
}
