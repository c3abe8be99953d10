/**
  * The 24/7 command of the TypeScript port (src/music/twentyfourseven.ts): it parses an
  * optional on/off argument, then either joins and records the guild's channel in memory
  * and on disk, or forgets it and, when nothing is queued or playing, leaves.
  */
module TsTwentyFourSeven {
  import opened Wrappers
  import opened Text
  import opened Stay247
  import opened PlayerState

  /** `args[0]?.toLowerCase()`. */
  function OptionOf(args: seq<string>): Option<string> {
    if args == [] then None else Some(LowerStr(args[0]))
  }

  /** `shouldEnable`: an explicit on or off word decides; anything else flips the current mode. */
  function ShouldEnable(option: Option<string>, current: bool): bool {
    if option == Some("on") || option == Some("enable") || option == Some("true") then true
    else if option == Some("off") || option == Some("disable") || option == Some("false") then false
    else !current
  }

  /**
    * Compared lowercased, "on", "enable" and "true" switch the mode on whatever it was,
    * "off", "disable" and "false" switch it off, and no argument or any other word toggles it.
    */
  lemma ShouldEnableSpec(args: seq<string>, current: bool)
    ensures var o := OptionOf(args);
      && (o in {Some("on"), Some("enable"), Some("true")} ==> ShouldEnable(o, current))
      && (o in {Some("off"), Some("disable"), Some("false")} ==> !ShouldEnable(o, current))
      && (o !in {Some("on"), Some("enable"), Some("true"), Some("off"), Some("disable"), Some("false")} ==>
            ShouldEnable(o, current) == !current)
      && (args == [] ==> ShouldEnable(o, current) == !current)
  {
  }

  /** The argument is read case-insensitively: "ON" and "Off" count as "on" and "off". */
  lemma ShouldEnableIgnoresCase(current: bool)
    ensures ShouldEnable(OptionOf(["ON"]), current)
    ensures !ShouldEnable(OptionOf(["Off"]), current)
  {
    assert LowerStr("ON") == "on";
    assert LowerStr("Off") == "off";
  }

  const NoVoiceReply := "Join a voice channel first to enable 24/7 mode."
  const EnabledReply := "24/7 mode enabled. I will stay in VC when idle."
  const DisabledReply := "24/7 mode disabled."

  datatype Outcome = Outcome(maps: Maps, disk: Disk, reply: Option<string>, raised: bool)

  /**
    * Enabling with the author in voice channel `ch`: reuse a connection or join (a join that is
    * not ready in time throws, leaving the library's connection), then record the guild.
    */
  function Enable(m: Maps, d: Disk, g: string, ch: string, readyOk: bool): Outcome {
    if !HasConnection(m, g) && !readyOk then Outcome(m.(live := m.live + {g}), d, None, true)
    else
      var m1 := if HasConnection(m, g) then m
                else m.(live := m.live + {g}, connections := m.connections + {g});
      Outcome(m1.(stayInVoice := m1.stayInVoice + {g}, stayChannels := m1.stayChannels[g := ch]),
              AfterSet(d, g, ch), Some(EnabledReply), false)
  }

  /** Disabling: forget the guild, then leave only when there is a connection and nothing to play. */
  function Disable(m: Maps, d: Disk, g: string): Outcome {
    var m1 := m.(stayInVoice := m.stayInVoice - {g}, stayChannels := m.stayChannels - {g});
    var idle := HasConnection(m1, g) && |QueueOf(m1, g)| == 0 && g !in m1.nowPlaying;
    var m2 := if idle then m1.(live := m1.live - {g}, connections := m1.connections - {g},
                               players := m1.players - {g}, queues := m1.queues - {g})
              else m1;
    Outcome(m2, AfterRemove(d, g), Some(DisabledReply), false)
  }

  /** `twentyFourSeven(message, args)`; `voice` is the author's voice channel. */
  function Toggle(m: Maps, d: Disk, guild: Option<string>, args: seq<string>, voice: Option<string>,
                  readyOk: bool): Outcome
  {
    if guild.None? then Outcome(m, d, None, false)
    else
      var g := guild.value;
      if ShouldEnable(OptionOf(args), g in m.stayInVoice) then
        if voice.None? then Outcome(m, d, Some(NoVoiceReply), false)
        else Enable(m, d, g, voice.value, readyOk)
      else Disable(m, d, g)
  }

  /**
    * Without a guild, or when enabling without a voice channel, nothing changes; otherwise the
    * parsed option chooses between enabling in the author's channel and disabling.
    */
  lemma ToggleSpec(m: Maps, d: Disk, guild: Option<string>, args: seq<string>, voice: Option<string>,
                   readyOk: bool)
    ensures var r := Toggle(m, d, guild, args, voice, readyOk);
      && (guild.None? ==> r == Outcome(m, d, None, false))
      && (guild.Some? ==>
            var on := ShouldEnable(OptionOf(args), guild.value in m.stayInVoice);
            && (on && voice.None? ==> r == Outcome(m, d, Some(NoVoiceReply), false))
            && (on && voice.Some? ==> r == Enable(m, d, guild.value, voice.value, readyOk))
            && (!on ==> r == Disable(m, d, guild.value)))
  {
  }

  /**
    * A completed enable records the channel in memory and on disk (unless the file holds an
    * array and the guild id is not an index, when the file stays as it was) and leaves a
    * connection; the only failure is a new connection that does not become ready, which records nothing. Other
    * guilds and other keys on disk are untouched, and the invariant is kept.
    */
  lemma EnableSpec(m: Maps, d: Disk, g: string, ch: string, readyOk: bool)
    ensures var r := Enable(m, d, g, ch, readyOk);
      && (r.raised <==> !HasConnection(m, g) && !readyOk)
      && (r.raised ==> r.disk == d && r.maps.stayInVoice == m.stayInVoice && r.reply.None?)
      && (!r.raised ==>
            && g in r.maps.stayInVoice && r.maps.stayChannels[g] == ch
            && (Persists(d, g) ==> g in Parsed(r.disk) && Parsed(r.disk)[g] == ch)
            && (!Persists(d, g) ==> r.disk == d)
            && HasConnection(r.maps, g) && r.reply == Some(EnabledReply))
      && r.maps.queues == m.queues && r.maps.nowPlaying == m.nowPlaying && r.maps.players == m.players
      && OthersKept(m, r.maps, g)
      && (forall h :: h != g ==> (h in Parsed(r.disk) <==> h in Parsed(d)))
      && (forall h :: h != g && h in Parsed(r.disk) ==> Parsed(r.disk)[h] == Parsed(d)[h])
      && (Consistent(m) ==> Consistent(r.maps))
  {
    if HasConnection(m, g) || readyOk {
      SetOthersKept(d, g, ch, Enable(m, d, g, ch, readyOk).disk);
    }
  }

  /** The disk half of a completed enable, stated on the file it writes. */
  lemma SetOthersKept(d: Disk, g: string, ch: string, d': Disk)
    requires d' == AfterSet(d, g, ch)
    ensures Persists(d, g) ==> g in Parsed(d') && Parsed(d')[g] == ch
    ensures !Persists(d, g) ==> d' == d
    ensures forall h :: h != g ==> (h in Parsed(d') <==> h in Parsed(d))
    ensures forall h :: h != g && h in Parsed(d') ==> Parsed(d')[h] == Parsed(d)[h]
  {
    SetSpec(d, g, ch);
  }

  /**
    * A disable removes the guild from the 24/7 set, the channel map and the file, and tears
    * down the connection, player and queue exactly when there was a connection, no queued
    * track and no current track. Other guilds and other keys on disk are untouched, and the
    * invariant is kept.
    */
  lemma DisableSpec(m: Maps, d: Disk, g: string)
    ensures var r := Disable(m, d, g);
      var idle := HasConnection(m, g) && QueueOf(m, g) == [] && g !in m.nowPlaying;
      && g !in r.maps.stayInVoice && g !in r.maps.stayChannels && g !in Parsed(r.disk)
      && r.reply == Some(DisabledReply) && !r.raised
      && (idle ==> g !in r.maps.live && g !in r.maps.connections && g !in r.maps.players && g !in r.maps.queues)
      && (!idle ==> r.maps.live == m.live && r.maps.connections == m.connections
                    && r.maps.players == m.players && r.maps.queues == m.queues)
      && r.maps.nowPlaying == m.nowPlaying && r.maps.textChannels == m.textChannels
      && OthersKept(m, r.maps, g)
      && (forall h :: h != g ==> (h in Parsed(r.disk) <==> h in Parsed(d)))
      && (forall h :: h != g && h in Parsed(r.disk) ==> Parsed(r.disk)[h] == Parsed(d)[h])
      && (Consistent(m) ==> Consistent(r.maps))
  {
    RemoveSpec(d, g);
  }

  /**
    * With the author in a voice channel and connections that come up, running the command
    * twice without an argument leaves the guild's 24/7 membership as it was.
    */
  lemma ToggleTwice(m: Maps, d: Disk, g: string, ch: string, readyOk: bool)
    requires readyOk
    ensures var r1 := Toggle(m, d, Some(g), [], Some(ch), readyOk);
      var r2 := Toggle(r1.maps, r1.disk, Some(g), [], Some(ch), readyOk);
      && (g in r1.maps.stayInVoice <==> g !in m.stayInVoice)
      && (g in r2.maps.stayInVoice <==> g in m.stayInVoice)
  {
    var r1 := Toggle(m, d, Some(g), [], Some(ch), readyOk);
    ToggleSpec(m, d, Some(g), [], Some(ch), readyOk);
    ToggleSpec(r1.maps, r1.disk, Some(g), [], Some(ch), readyOk);
    if g in m.stayInVoice {
      DisableSpec(m, d, g);
      EnableSpec(r1.maps, r1.disk, g, ch, readyOk);
    } else {
      EnableSpec(m, d, g, ch, readyOk);
      DisableSpec(r1.maps, r1.disk, g);
    }
  }

  /** The command, on the shared maps and the 24/7 file. */
  method TwentyFourSevenCommand(st: PlayerState, guild: Option<string>, args: seq<string>,
                                voice: Option<string>, readyOk: bool)
    returns (reply: Option<string>, raised: bool)
    modifies st, st.store
    ensures Outcome(st.Snapshot(), st.store.disk, reply, raised)
            == Toggle(old(st.Snapshot()), old(st.store.disk), guild, args, voice, readyOk)
  {
    reply, raised := None, false;
    if guild.None? {
      return;
    }
    var g := guild.value;
    var current := g in st.stayInVoice;
    var option := if |args| == 0 then None else Some(LowerStr(args[0]));
    if ShouldEnable(option, current) {
      if voice.None? {
        reply := Some(NoVoiceReply);
        return;
      }
      reply, raised := EnableStay(st, g, voice.value, readyOk);
    } else {
      reply := DisableStay(st, g);
    }
  }

  /** The enabling branch of the command. */
  method EnableStay(st: PlayerState, g: string, ch: string, readyOk: bool)
    returns (reply: Option<string>, raised: bool)
    modifies st, st.store
    ensures Outcome(st.Snapshot(), st.store.disk, reply, raised) == Enable(old(st.Snapshot()), old(st.store.disk), g, ch, readyOk)
  {
    reply, raised := None, false;
    if !(g in st.connections || g in st.live) {
      st.live := st.live + {g};
      if !readyOk {
        raised := true;
        return;
      }
      st.connections := st.connections + {g};
    }
    st.stayInVoice := st.stayInVoice + {g};
    st.stayChannels := st.stayChannels[g := ch];
    st.store.Set(g, ch);
    reply := Some(EnabledReply);
  }

  /** The disabling branch of the command. */
  method DisableStay(st: PlayerState, g: string) returns (reply: Option<string>)
    modifies st, st.store
    ensures Outcome(st.Snapshot(), st.store.disk, reply, false) == Disable(old(st.Snapshot()), old(st.store.disk), g)
  {
    st.stayInVoice := st.stayInVoice - {g};
    st.stayChannels := st.stayChannels - {g};
    st.store.Remove(g);
    var hasConnection := g in st.connections || g in st.live;
    var hasQueue := (if g in st.queues then |st.queues[g]| else 0) > 0;
    var hasNowPlaying := g in st.nowPlaying;
    if hasConnection && !hasQueue && !hasNowPlaying {
      st.live := st.live - {g};
      st.connections := st.connections - {g};
      st.players := st.players - {g};
      st.queues := st.queues - {g};
    }
    reply := Some(DisabledReply);
  }
}
