/**
  * The queue command of the TypeScript port (src/music/queue.ts) and the "m:ss" duration
  * format it shares with the now-playing card. The command only reads the shared maps.
  */
module TsQueue {
  import opened Wrappers
  import opened Text
  import opened PlayerState

  /** Reads "m:ss" back: unpadded minutes, then two digits below 60; anything else is None. */
  function MinutesSeconds(s: string): Option<int> {
    var parts := Split(s, ':');
    if |parts| == 2 && IsDigitString(parts[0]) && |parts[1]| == 2 && AllDigits(parts[1]) && DigitsValue(parts[1]) < 60
    then Some(60 * DigitsValue(parts[0]) + DigitsValue(parts[1]))
    else None
  }

  /**
    * `formatDuration(sec)`: a non-positive value counts as 0; then whole minutes without
    * padding, a colon, and the remaining seconds as two digits. The text reads back as the
    * clamped number of seconds and always has exactly two fields: minutes never become hours.
    */
  function FormatDuration(sec: int): string {
    var total: nat := if sec > 0 then sec else 0;
    NatToString(total / 60) + ":" + Pad2(total % 60)
  }

  lemma FormatDurationRoundTrip(sec: int)
    ensures MinutesSeconds(FormatDuration(sec)) == Some(Max(0, sec))
    ensures |Split(FormatDuration(sec), ':')| == 2
  {
    var total: nat := if sec > 0 then sec else 0;
    MinutesSecondsReadBack(total / 60, total % 60);
  }

  lemma NoColonInDigits(s: string)
    requires AllDigits(s)
    ensures ':' !in s
  {
    assert forall i :: 0 <= i < |s| ==> s[i] != ':';
  }

  lemma MinutesSecondsReadBack(mins: nat, secs: nat)
    requires secs < 60
    ensures var s := NatToString(mins) + ":" + Pad2(secs);
      MinutesSeconds(s) == Some(60 * mins + secs) && |Split(s, ':')| == 2
  {
    var a, b := NatToString(mins), Pad2(secs);
    NoColonInDigits(a);
    NoColonInDigits(b);
    SplitCons(a, ':', b);
    assert a + ":" + b == a + [':'] + b;
    assert Split(b, ':') == [b];
    DigitsValueOfNatToString(mins);
    DigitsValueOfPad2(secs);
  }

  /** "0:00" is shown exactly for a non-positive duration. */
  lemma FormatDurationZero(sec: int)
    ensures FormatDuration(sec) == "0:00" <==> sec <= 0
  {
    assert NatToString(0) == "0" && Pad2(0) == "00";
    assert FormatDuration(0) == "0:00";
    FormatDurationRoundTrip(0);
    FormatDurationRoundTrip(sec);
  }

  /** The kinds of line in the reply, before they are written out. */
  datatype Line = NowLine(track: QueueTrack) | Blank | UpNextHeading | Entry(n: nat, track: QueueTrack) | More(n: nat)

  function TrackText(t: QueueTrack): string {
    "**" + t.title + "** - " + t.artist + " (" + FormatDuration(t.duration) + ")"
  }

  /** A line as the reply writes it. */
  function Render(l: Line): string {
    match l
    case NowLine(t) => "Now Playing: " + TrackText(t)
    case Blank => ""
    case UpNextHeading => "Up Next:"
    case Entry(n, t) => NatToString(n) + ". " + TrackText(t)
    case More(n) => "...and " + NatToString(n) + " more"
  }

  function RenderAll(lines: seq<Line>): (r: seq<string>)
    ensures |r| == |lines| && forall i :: 0 <= i < |lines| ==> r[i] == Render(lines[i])
  {
    seq(|lines|, i requires 0 <= i < |lines| => Render(lines[i]))
  }

  lemma RenderAllAppend(a: seq<Line>, b: seq<Line>)
    ensures RenderAll(a + b) == RenderAll(a) + RenderAll(b)
  {
  }

  /**
    * The written lines tell their kinds apart: a numbered line starts with a digit, the
    * closing count with a dot, the current track with "N", and only the blank line is empty.
    */
  lemma RenderDistinguishes(n: nat, t: QueueTrack, k: nat, u: QueueTrack)
    ensures Render(Entry(n, t)) != Render(More(k))
    ensures Render(Entry(n, t)) != Render(NowLine(u))
    ensures Render(More(k)) != Render(NowLine(u))
    ensures Render(Blank) == "" && Render(Entry(n, t)) != "" && Render(More(k)) != "" && Render(NowLine(u)) != ""
  {
    assert Render(Entry(n, t))[0] == NatToString(n)[0];
    assert Render(More(k))[0] == '.';
    assert Render(NowLine(u))[0] == 'N';
  }

  /** The numbered entries for the listed tracks, from 1. */
  function UpNextLines(shown: seq<QueueTrack>): seq<Line>
    decreases |shown|
  {
    if shown == [] then []
    else UpNextLines(shown[..|shown| - 1]) + [Entry(|shown|, shown[|shown| - 1])]
  }

  /** One line per listed track, line `i` for track `i`, numbered from 1. */
  lemma {:induction false} UpNextLinesSpec(shown: seq<QueueTrack>)
    ensures |UpNextLines(shown)| == |shown|
    ensures forall i :: 0 <= i < |shown| ==> UpNextLines(shown)[i] == Entry(i + 1, shown[i])
    decreases |shown|
  {
    if shown != [] {
      var front := shown[..|shown| - 1];
      UpNextLinesSpec(front);
      assert forall i :: 0 <= i < |front| ==> front[i] == shown[i];
    }
  }

  /** The reply's lines; None stands for the "Queue is empty." reply. */
  function QueueLines(current: Option<QueueTrack>, upcoming: seq<QueueTrack>): Option<seq<Line>> {
    if current.None? && upcoming == [] then None
    else
      var head := if current.Some? then [NowLine(current.value)] else [];
      if upcoming == [] then Some(head)
      else
        Some(head + [Blank, UpNextHeading] + UpNextLines(upcoming[..Min(|upcoming|, 10)])
             + (if |upcoming| > 10 then [More(|upcoming| - 10)] else []))
  }

  /**
    * "Queue is empty." exactly when nothing plays and nothing waits. Otherwise the current
    * track's line comes first; with a queue, a blank line and "Up Next:" follow, then the first
    * ten tracks numbered from 1 in order, then "...and N more" exactly when more than ten wait,
    * with N the number not listed.
    */
  lemma QueueLinesSpec(current: Option<QueueTrack>, upcoming: seq<QueueTrack>)
    ensures QueueLines(current, upcoming).None? <==> current.None? && upcoming == []
    ensures QueueLines(current, upcoming).Some? ==>
      var lines := QueueLines(current, upcoming).value;
      var h := if current.Some? then 1 else 0;
      var shown := Min(|upcoming|, 10);
      && (current.Some? ==> lines[0] == NowLine(current.value))
      && (upcoming == [] ==> |lines| == h)
      && (upcoming != [] ==>
            && |lines| == h + 2 + shown + (if |upcoming| > 10 then 1 else 0)
            && lines[h] == Blank && lines[h + 1] == UpNextHeading
            && (forall i :: 0 <= i < shown ==> lines[h + 2 + i] == Entry(i + 1, upcoming[i]))
            && (|upcoming| > 10 <==> lines[|lines| - 1] == More(|upcoming| - shown)))
  {
    if upcoming != [] {
      var shown := Min(|upcoming|, 10);
      UpNextLinesSpec(upcoming[..shown]);
    }
  }

  /** `queue(message)`'s reply text. */
  function QueueReply(current: Option<QueueTrack>, upcoming: seq<QueueTrack>): string {
    match QueueLines(current, upcoming)
    case None => "Queue is empty."
    case Some(lines) => Join(RenderAll(lines), "\n")
  }

  /** The command; it reads the guild's current track and queue and changes nothing. */
  method QueueCommand(st: PlayerState, g: string) returns (reply: string)
    ensures reply == QueueReply(if g in st.nowPlaying then Some(st.nowPlaying[g]) else None,
                                QueueOf(st.Snapshot(), g))
  {
    var upcoming := if g in st.queues then st.queues[g] else [];
    assert upcoming == QueueOf(st.Snapshot(), g);
    ghost var current := if g in st.nowPlaying then Some(st.nowPlaying[g]) else None;
    if g !in st.nowPlaying && |upcoming| == 0 {
      return "Queue is empty.";
    }
    var lines: seq<string> := [];
    ghost var parts: seq<Line> := [];
    if g in st.nowPlaying {
      lines := lines + [Render(NowLine(st.nowPlaying[g]))];
      parts := [NowLine(st.nowPlaying[g])];
    }
    assert parts == if current.Some? then [NowLine(current.value)] else [];
    assert lines == RenderAll(parts);
    ghost var head := parts;
    if |upcoming| > 0 {
      var shown := upcoming[..Min(|upcoming|, 10)];
      RenderAllAppend(parts, [Blank, UpNextHeading]);
      lines := lines + [Render(Blank), Render(UpNextHeading)];
      parts := parts + [Blank, UpNextHeading];
      assert lines == RenderAll(parts);
      var entries := NumberTracks(shown);
      RenderAllAppend(parts, UpNextLines(shown));
      lines := lines + entries;
      parts := parts + UpNextLines(shown);
      assert lines == RenderAll(parts);
      if |upcoming| > 10 {
        RenderAllAppend(parts, [More(|upcoming| - 10)]);
        lines := lines + [Render(More(|upcoming| - 10))];
        parts := parts + [More(|upcoming| - 10)];
        assert lines == RenderAll(parts);
      }
      assert parts == head + [Blank, UpNextHeading] + UpNextLines(shown)
                      + (if |upcoming| > 10 then [More(|upcoming| - 10)] else []);
    }
    assert lines == RenderAll(parts);
    assert QueueLines(current, upcoming) == Some(parts);
    reply := Join(lines, "\n");
  }

  /** The `for (let i = 0; i < Math.min(upcoming.length, 10); i++)` loop. */
  method NumberTracks(shown: seq<QueueTrack>) returns (lines: seq<string>)
    ensures lines == RenderAll(UpNextLines(shown))
  {
    lines := [];
    for i := 0 to |shown|
      invariant lines == RenderAll(UpNextLines(shown[..i]))
    {
      assert shown[..i + 1][..i] == shown[..i];
      RenderAllAppend(UpNextLines(shown[..i]), [Entry(i + 1, shown[i])]);
      lines := lines + [NatToString(i + 1) + ". " + TrackText(shown[i])];
    }
    assert shown[..|shown|] == shown;
  }
}
