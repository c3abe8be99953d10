/**
  * The stop command of the TypeScript port (src/music/stop.ts): with a live voice connection
  * it destroys it and deletes everything the guild has in the shared maps and on disk.
  */
module TsStop {
  import opened Wrappers
  import opened Stay247
  import opened PlayerState

  const NotInVoiceReply := "You need to be in a voice channel to stop music."
  const LeftReply := "Stopped playback and left the voice channel."
  const IdleReply := "I'm not playing anything."

  /** The seven deletions and the destroyed connection. */
  function Cleared(m: Maps, g: string): Maps {
    m.(live := m.live - {g}, connections := m.connections - {g}, players := m.players - {g},
       queues := m.queues - {g}, nowPlaying := m.nowPlaying - {g}, textChannels := m.textChannels - {g},
       stayInVoice := m.stayInVoice - {g}, stayChannels := m.stayChannels - {g})
  }

  /** `stop(message)` in guild `g`; `inVoice` is whether the author is in a voice channel. */
  function Stop(m: Maps, d: Disk, g: string, inVoice: bool): (Maps, Disk, string) {
    if !inVoice then (m, d, NotInVoiceReply)
    else if g in m.live then (Cleared(m, g), AfterRemove(d, g), LeftReply)
    else (m, d, IdleReply)
  }

  /**
    * A stop that finds a live connection leaves the guild with no entry in any map or set and
    * none on disk; without the author in voice, or without a live connection, nothing changes.
    * Either way no other guild and no other key on disk is touched, and the invariant is kept.
    */
  lemma StopSpec(m: Maps, d: Disk, g: string, inVoice: bool)
    ensures var (m', d', reply) := Stop(m, d, g, inVoice);
      && (!inVoice ==> m' == m && d' == d && reply == NotInVoiceReply)
      && (inVoice && g !in m.live ==> m' == m && d' == d && reply == IdleReply)
      && (inVoice && g in m.live ==>
            && SliceOf(m', g) == Slice(false, false, false, None, None, None, false, None)
            && g !in Parsed(d') && reply == LeftReply)
      && OthersKept(m, m', g)
      && (forall h :: h != g ==> (h in Parsed(d') <==> h in Parsed(d)))
      && (forall h :: h != g && h in Parsed(d') ==> Parsed(d')[h] == Parsed(d)[h])
      && (Consistent(m) ==> Consistent(m'))
  {
    RemoveSpec(d, g);
  }

  method StopCommand(st: PlayerState, g: string, inVoice: bool) returns (reply: string)
    modifies st, st.store
    ensures (st.Snapshot(), st.store.disk, reply) == Stop(old(st.Snapshot()), old(st.store.disk), g, inVoice)
  {
    if !inVoice {
      return NotInVoiceReply;
    }
    if g in st.live {
      st.live := st.live - {g};
      st.connections := st.connections - {g};
      st.players := st.players - {g};
      st.queues := st.queues - {g};
      st.nowPlaying := st.nowPlaying - {g};
      st.textChannels := st.textChannels - {g};
      st.stayInVoice := st.stayInVoice - {g};
      st.stayChannels := st.stayChannels - {g};
      st.store.Remove(g);
      reply := LeftReply;
    } else {
      reply := IdleReply;
    }
  }
}
