/**
  * The entry point of the TypeScript port (src/index.ts): restoring the persisted 24/7
  * guilds at start-up, and turning a message into a command dispatch. Guild and channel
  * lookups and the voice library's readiness are parameters.
  */
module TsIndex {
  import opened Wrappers
  import opened Text
  import opened Stay247
  import opened PlayerState

  const Prefix := ";"
  const OwnerId := "1261577588669939755"
  const OwnerOnlyReply := "Owner only command."

  /** The handlers of the command registry. */
  datatype Handler = PlayHandler | StopHandler | SkipHandler | PingHandler | QueueHandler | TwentyFourSevenHandler

  /**
    * What a message leads to: nothing, a handler call with the remaining tokens, a reply,
    * a reload of the command modules with its reply, or a restart of the process.
    */
  datatype Action = Ignore | Dispatch(handler: Handler, args: seq<string>) | Reply(text: string)
                  | Reload(reply: string) | Restart

  /** `content.slice(prefix.length).trim().split(" ")`: the command word lowercased, and the rest. */
  function Tokens(content: string): (string, seq<string>)
    requires |content| >= |Prefix|
  {
    var parts := Split(Strip(content[|Prefix|..]), ' ');
    (LowerStr(parts[0]), parts[1..])
  }

  function HandlerFor(command: string): Option<Handler> {
    if command == "play" then Some(PlayHandler)
    else if command == "stop" then Some(StopHandler)
    else if command == "skip" then Some(SkipHandler)
    else if command == "ping" then Some(PingHandler)
    else if command == "queue" then Some(QueueHandler)
    else if command == "24/7" || command == "247" then Some(TwentyFourSevenHandler)
    else None
  }

  /** The dispatch on the lowercased command word; `reloadOk` is whether reloading the command modules succeeds. */
  function RouteCommand(authorId: string, command: string, args: seq<string>, reloadOk: bool): Action {
    match HandlerFor(command)
    case Some(h) => Dispatch(h, args)
    case None =>
      if command == "reload" then
        if authorId != OwnerId then Reply(OwnerOnlyReply)
        else Reload(if reloadOk then "Reloaded commands." else "Reload failed.")
      else if command == "restart" then
        if authorId != OwnerId then Reply(OwnerOnlyReply) else Restart
      else Ignore
  }

  /** The `messageCreate` handler. */
  function Route(fromBot: bool, authorId: string, content: string, reloadOk: bool): Action {
    if fromBot then Ignore
    else if !(|content| >= |Prefix| && content[..|Prefix|] == Prefix) then Ignore
    else
      var (command, args) := Tokens(content);
      RouteCommand(authorId, command, args, reloadOk)
  }

  /**
    * Messages from bots and messages not starting with ";" are ignored; any other message is
    * dispatched on its tokens.
    */
  lemma RouteSpec(fromBot: bool, authorId: string, content: string, reloadOk: bool)
    ensures var r := Route(fromBot, authorId, content, reloadOk);
      && (fromBot || content == [] || content[0] != ';' ==> r == Ignore)
      && (!fromBot && content != [] && content[0] == ';' ==>
            r == RouteCommand(authorId, Tokens(content).0, Tokens(content).1, reloadOk))
  {
    if content != [] {
      assert content[..1] == [content[0]];
    }
  }

  /**
    * A known command word calls its handler with the remaining tokens, "24/7" and "247" both
    * calling the 24/7 handler; reload and restart act only for the owner and refuse everyone
    * else with the same reply; any other word does nothing.
    */
  lemma RouteCommandSpec(authorId: string, command: string, args: seq<string>, reloadOk: bool)
    ensures var r := RouteCommand(authorId, command, args, reloadOk);
      && (command == "24/7" || command == "247" ==> r == Dispatch(TwentyFourSevenHandler, args))
      && (HandlerFor(command).Some? ==> r == Dispatch(HandlerFor(command).value, args))
      && ((command == "reload" || command == "restart") && authorId != OwnerId ==> r == Reply(OwnerOnlyReply))
      && (command == "reload" && authorId == OwnerId ==>
            r == Reload(if reloadOk then "Reloaded commands." else "Reload failed."))
      && (command == "restart" && authorId == OwnerId ==> r == Restart)
      && (HandlerFor(command).None? && command != "reload" && command != "restart" ==> r == Ignore)
      && (r.Reload? || r.Restart? ==> authorId == OwnerId)
      && (r.Dispatch? ==> r.args == args)
  {
  }

  /** Only these six words name a handler. */
  lemma HandlerForSpec(command: string)
    ensures HandlerFor(command).Some? <==>
      command in ["play", "stop", "skip", "ping", "queue", "24/7", "247"]
  {
  }

  /** A word that `trim` and `split(" ")` leave whole. */
  predicate IsWord(w: string) {
    w != [] && forall i :: 0 <= i < |w| ==> !IsSpace(w[i])
  }

  /**
    * A command line written as the prefix, a command word and argument words separated by
    * single spaces is read back as that command word, lowercased, with exactly those arguments.
    */
  lemma TokensOfCommandLine(command: string, args: seq<string>)
    requires IsWord(command) && forall k :: 0 <= k < |args| ==> IsWord(args[k])
    ensures Tokens(Prefix + Join([command] + args, " ")) == (LowerStr(command), args)
  {
    var words := [command] + args;
    assert forall k :: 0 <= k < |words| ==> IsWord(words[k]) by {
      forall k | 0 <= k < |words| ensures IsWord(words[k]) {
        if k > 0 { assert words[k] == args[k - 1]; }
      }
    }
    var line := Join(words, " ");
    LineOfWords(words);
    assert (Prefix + line)[|Prefix|..] == line;
    assert words[1..] == args;
  }

  /** Words joined by single spaces survive `trim` and `split(" ")` unchanged. */
  lemma LineOfWords(words: seq<string>)
    requires |words| >= 1 && forall k :: 0 <= k < |words| ==> IsWord(words[k])
    ensures Strip(Join(words, " ")) == Join(words, " ")
    ensures Split(Join(words, " "), ' ') == words
  {
    JoinOfWordsIsTrimmed(words);
    StripOfStripped(Join(words, " "));
    forall k | 0 <= k < |words|
      ensures ' ' !in words[k]
    {
      assert IsWord(words[k]);
      assert forall i :: 0 <= i < |words[k]| ==> words[k][i] != ' ';
    }
    SplitJoin(words, ' ');
  }

  /** Words joined by spaces start and end with a non-space. */
  lemma {:induction false} JoinOfWordsIsTrimmed(words: seq<string>)
    requires |words| >= 1 && forall k :: 0 <= k < |words| ==> IsWord(words[k])
    ensures var line := Join(words, " ");
      line != [] && !IsSpace(line[0]) && !IsSpace(line[|line| - 1])
    decreases |words|
  {
    assert IsWord(words[0]);
    if |words| > 1 {
      JoinOfWordsIsTrimmed(words[1..]);
      var rest := Join(words[1..], " ");
      assert Join(words, " ") == words[0] + " " + rest;
    }
  }

  // ---------------------------------------------------------------------------
  // Restoring 24/7 guilds at start-up
  // ---------------------------------------------------------------------------

  /**
    * One persisted entry: a guild and channel that resolve to a voice channel are joined;
    * when the connection becomes ready the guild is recorded as a 24/7 guild. A lookup or
    * readiness failure is caught and only skips this entry.
    */
  function RestoreOne(m: Maps, g: string, c: string, found: bool, ready: bool): Maps {
    if !found then m
    else if !ready then m.(live := m.live + {g})
    else m.(live := m.live + {g}, connections := m.connections + {g},
            stayInVoice := m.stayInVoice + {g}, stayChannels := m.stayChannels[g := c])
  }

  /** The entries in `order`, processed one after the other. */
  function RestoreAll(m: Maps, persisted: map<string, string>, order: seq<string>,
                      found: (string, string) -> bool, ready: (string, string) -> bool): Maps
    requires forall k :: k in order ==> k in persisted
    decreases |order|
  {
    if order == [] then m
    else
      var g := order[|order| - 1];
      var c := persisted[g];
      RestoreOne(RestoreAll(m, persisted, order[..|order| - 1], found, ready), g, c, found(g, c), ready(g, c))
  }

  /**
    * After the start-up pass, a listed guild whose channel was found and whose connection
    * became ready is a 24/7 guild with its persisted channel and a connection; a listed guild
    * that failed keeps its 24/7 state; a guild not listed is untouched.
    */
  lemma {:induction false} RestoreAllAt(m: Maps, persisted: map<string, string>, order: seq<string>,
                                        found: (string, string) -> bool, ready: (string, string) -> bool,
                                        g: string)
    requires forall k :: k in order ==> k in persisted
    requires forall i, j :: 0 <= i < j < |order| ==> order[i] != order[j]
    ensures var m' := RestoreAll(m, persisted, order, found, ready);
      && (g in order && found(g, persisted[g]) && ready(g, persisted[g]) ==>
            g in m'.stayInVoice && g in m'.stayChannels && m'.stayChannels[g] == persisted[g]
            && g in m'.connections)
      && (g in order && !(found(g, persisted[g]) && ready(g, persisted[g])) ==>
            (g in m'.stayInVoice <==> g in m.stayInVoice)
            && (g in m'.stayChannels <==> g in m.stayChannels)
            && (g in m'.connections <==> g in m.connections))
      && (g !in order ==> SliceOf(m', g) == SliceOf(m, g))
    decreases |order|
  {
    if order != [] {
      var front := order[..|order| - 1];
      var last := order[|order| - 1];
      assert forall k :: k in front ==> k in order;
      RestoreAllAt(m, persisted, front, found, ready, g);
      assert last !in front by {
        forall i | 0 <= i < |front| ensures front[i] != last {
          assert front[i] == order[i];
        }
      }
      assert g in order <==> g in front || g == last;
      if g != last {
        var c := persisted[last];
        RestoreOneElsewhere(RestoreAll(m, persisted, front, found, ready), last, c, found(last, c), ready(last, c), g);
      }
    }
  }

  /** Restoring one guild leaves every other guild's slice as it was. */
  lemma RestoreOneElsewhere(m: Maps, g: string, c: string, found: bool, ready: bool, h: string)
    requires h != g
    ensures SliceOf(RestoreOne(m, g, c, found, ready), h) == SliceOf(m, h)
  {
  }

  /**
    * The start-up pass touches no queue, current track, player or text channel, and keeps the
    * invariant: a guild only gains a connection after the library registered it.
    */
  lemma {:induction false} RestoreAllFrame(m: Maps, persisted: map<string, string>, order: seq<string>,
                                           found: (string, string) -> bool, ready: (string, string) -> bool)
    requires forall k :: k in order ==> k in persisted
    ensures var m' := RestoreAll(m, persisted, order, found, ready);
      && m'.queues == m.queues && m'.nowPlaying == m.nowPlaying && m'.players == m.players
      && m'.textChannels == m.textChannels
      && m.live <= m'.live && m.stayInVoice <= m'.stayInVoice
      && (Consistent(m) ==> Consistent(m'))
    decreases |order|
  {
    if order != [] {
      var front := order[..|order| - 1];
      assert forall k :: k in front ==> k in order;
      RestoreAllFrame(m, persisted, front, found, ready);
    }
  }

  /** The `clientReady` handler's loop over the persisted 24/7 file. */
  method RestoreStay247(st: PlayerState, order: seq<string>, found: (string, string) -> bool,
                        ready: (string, string) -> bool)
    requires forall k :: k in order <==> k in Parsed(st.store.disk)
    requires forall i, j :: 0 <= i < j < |order| ==> order[i] != order[j]
    modifies st
    ensures st.Snapshot() == RestoreAll(old(st.Snapshot()), Parsed(st.store.disk), order, found, ready)
  {
    var persisted := st.store.Read();
    ghost var m0 := st.Snapshot();
    for i := 0 to |order|
      invariant st.Snapshot() == RestoreAll(m0, persisted, order[..i], found, ready)
    {
      var g := order[i];
      var c := persisted[g];
      assert order[..i + 1][..i] == order[..i];
      if found(g, c) {
        st.live := st.live + {g};
        if ready(g, c) {
          st.connections := st.connections + {g};
          st.stayInVoice := st.stayInVoice + {g};
          st.stayChannels := st.stayChannels[g := c];
        }
      }
    }
    assert order[..|order|] == order;
  }
}
