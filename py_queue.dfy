/**
  * The `queue` command of the Python bot (cogs/music/queue.py): the current track, then at
  * most ten queued entries, then a count of the rest. A bare id among the first ten is a
  * string, which has no `artist`, so the command raises AttributeError instead of replying.
  */
module QueueCog {
  import opened Wrappers
  import opened Text
  import opened MusicState
  import opened Guilds

  function NowLine(t: Track): string {
    "Now: **" + t.title + "** - " + t.artist
  }

  function EntryLine(i: nat, t: Track): string {
    NatToString(i) + ". " + t.title + " - " + t.artist
  }

  /** The numbered lines for the shown entries, or None at a bare id. */
  function UpNextLines(shown: seq<QueueEntry>): Option<seq<string>>
    decreases |shown|
  {
    if shown == [] then Some([])
    else
      match UpNextLines(shown[..|shown| - 1])
      case None => None
      case Some(lines) =>
        match shown[|shown| - 1]
        case BareId(_) => None
        case Queued(t) => Some(lines + [EntryLine(|shown|, t)])
  }

  /** There are lines exactly when every shown entry is a track, and then line `i` is entry `i + 1`, numbered from 1. */
  lemma {:induction false} UpNextLinesSpec(shown: seq<QueueEntry>)
    ensures UpNextLines(shown).Some? <==> AllTracks(shown)
    ensures UpNextLines(shown).Some? ==>
      var lines := UpNextLines(shown).value;
      |lines| == |shown| && forall i :: 0 <= i < |shown| ==> lines[i] == EntryLine(i + 1, shown[i].track)
    decreases |shown|
  {
    if shown != [] {
      var front := shown[..|shown| - 1];
      UpNextLinesSpec(front);
      assert forall i :: 0 <= i < |front| ==> front[i] == shown[i];
    }
  }

  function MoreLine(remaining: nat): string {
    "...and " + NatToString(remaining) + " more"
  }

  /** The lines `queue` joins with newlines; `known` is whether the guild has a state (none is created). */
  function QueueLines(known: bool, g: GuildView): Result<seq<string>, string> {
    if !known then Ok(["Queue is empty."])
    else
      var head := if g.nowPlaying.Some? then [NowLine(g.nowPlaying.value)] else [];
      if g.queue == [] then
        if head != [] then Ok(head + ["Up next: empty"]) else Ok(["Queue is empty."])
      else
        match UpNextLines(g.queue[..Min(10, |g.queue|)])
        case None => Err("AttributeError")
        case Some(lines) =>
          Ok(head + ["Up next:"] + lines + (if |g.queue| > 10 then [MoreLine(|g.queue| - 10)] else []))
  }

  /**
    * With a queue, the reply lists its first ten entries in order, numbered from 1, and
    * counts the rest, so shown plus counted is the queue's length; it fails exactly when one of
    * the shown entries is a bare id.
    */
  lemma QueueLinesSpec(g: GuildView)
    requires g.queue != []
    ensures var r := QueueLines(true, g);
      var shown := g.queue[..Min(10, |g.queue|)];
      var h := if g.nowPlaying.Some? then 1 else 0;
      && (r.Err? <==> !AllTracks(shown))
      && (r.Ok? ==>
            && |r.value| == h + 1 + |shown| + (if |g.queue| > 10 then 1 else 0)
            && r.value[h] == "Up next:"
            && (forall i :: 0 <= i < |shown| ==> r.value[h + 1 + i] == EntryLine(i + 1, shown[i].track))
            && (|g.queue| > 10 ==> r.value[|r.value| - 1] == MoreLine(|g.queue| - |shown|)))
  {
    UpNextLinesSpec(g.queue[..Min(10, |g.queue|)]);
  }

  /** Without a queue: the current track and "Up next: empty", or just "Queue is empty.". */
  lemma QueueLinesWhenEmpty(known: bool, g: GuildView)
    requires !known || g.queue == []
    ensures QueueLines(known, g) == Ok(if known && g.nowPlaying.Some? then [NowLine(g.nowPlaying.value), "Up next: empty"]
                                       else ["Queue is empty."])
  {
    if known && g.nowPlaying.Some? {
      assert [NowLine(g.nowPlaying.value)] + ["Up next: empty"] == [NowLine(g.nowPlaying.value), "Up next: empty"];
    }
  }

  function QueueReply(known: bool, g: GuildView): Result<string, string> {
    match QueueLines(known, g)
    case Err(e) => Err(e)
    case Ok(lines) => Ok(Join(lines, "\n"))
  }

  /** The `queue` command; it changes nothing. */
  method QueueCommand(reg: MusicStates, guild: Option<int>) returns (reply: Result<string, string>)
    ensures guild.None? ==> reply == Ok("Queue is empty.")
    ensures guild.Some? ==> reply == QueueReply(guild.value in reg.states, reg.ViewOf(guild.value))
  {
    assert Join(["Queue is empty."], "\n") == "Queue is empty.";
    if guild.None? || guild.value !in reg.states {
      return Ok("Queue is empty.");
    }
    var s := reg.states[guild.value];
    assert s.View() == reg.ViewOf(guild.value);
    var lines: seq<string> := [];
    if s.nowPlaying.Some? {
      lines := lines + [NowLine(s.nowPlaying.value)];
    }
    ghost var head := lines;
    assert head == (if s.nowPlaying.Some? then [NowLine(s.nowPlaying.value)] else []);
    if s.queue == [] {
      if lines != [] {
        lines := lines + ["Up next: empty"];
        return Ok(Join(lines, "\n"));
      }
      return Ok("Queue is empty.");
    }
    lines := lines + ["Up next:"];
    var entries := NumberEntries(s.queue[..Min(10, |s.queue|)]);
    if entries.None? {
      return Err("AttributeError");
    }
    lines := lines + entries.value;
    var remaining := |s.queue| - 10;
    if remaining > 0 {
      lines := lines + [MoreLine(remaining)];
    }
    assert lines == head + ["Up next:"] + entries.value + (if |s.queue| > 10 then [MoreLine(|s.queue| - 10)] else []);
    reply := Ok(Join(lines, "\n"));
  }

  /** The `for i, track in enumerate(...)` loop; None where a bare id's `artist` raises. */
  method NumberEntries(shown: seq<QueueEntry>) returns (lines: Option<seq<string>>)
    ensures lines == UpNextLines(shown)
  {
    var acc: seq<string> := [];
    for i := 0 to |shown|
      invariant UpNextLines(shown[..i]) == Some(acc)
    {
      assert shown[..i + 1][..i] == shown[..i];
      if shown[i].BareId? {
        UpNextStaysNone(shown, i + 1);
        return None;
      }
      acc := acc + [EntryLine(i + 1, shown[i].track)];
    }
    assert shown[..|shown|] == shown;
    lines := Some(acc);
  }

  /** Once a prefix has no lines, neither has the whole. */
  lemma {:induction false} UpNextStaysNone(shown: seq<QueueEntry>, k: nat)
    requires k <= |shown| && UpNextLines(shown[..k]).None?
    ensures UpNextLines(shown).None?
    decreases |shown| - k
  {
    if k < |shown| {
      var front := shown[..|shown| - 1];
      assert front[..k] == shown[..k];
      UpNextStaysNone(front, k);
    } else {
      assert shown[..k] == shown;
    }
  }
}
