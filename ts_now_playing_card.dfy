/**
  * The text-fitting helpers of the TypeScript port's now-playing card
  * (src/music/nowPlayingCard.ts). Drawing is left out; the canvas's text measurement is a
  * function parameter giving a width for a string (and, for the title, a font size).
  */
module NowPlayingCard {
  import opened Wrappers
  import opened Text
  import TsPlay

  const Ellipsis: char := '…'

  /** JavaScript `s.slice(0, end)`: a negative end counts from the back. */
  function SliceTo(s: string, end: int): (r: string)
    ensures |r| <= |s| && r == s[..|r|]
    ensures 0 <= end <= |s| ==> |r| == end
  {
    if end < 0 then s[..Max(0, |s| + end)] else s[..Min(end, |s|)]
  }

  /** `truncate(text, maxLen)`: an over-long text keeps its first `maxLen - 1` characters and gains "…". */
  function Truncate(text: string, maxLen: int): string {
    if |text| <= maxLen then text else SliceTo(text, maxLen - 1) + [Ellipsis]
  }

  /**
    * A text that fits is returned unchanged. For a positive limit an over-long text becomes
    * exactly `maxLen` characters: its first `maxLen - 1` followed by "…"; truncating again
    * changes nothing.
    */
  lemma TruncateSpec(text: string, maxLen: int)
    requires maxLen >= 1
    ensures var r := Truncate(text, maxLen);
      && |r| <= maxLen
      && (|text| <= maxLen ==> r == text)
      && (|text| > maxLen ==> |r| == maxLen && r[..maxLen - 1] == text[..maxLen - 1] && r[maxLen - 1] == Ellipsis)
      && Truncate(r, maxLen) == r
  {
  }

  // ---------------------------------------------------------------------------
  // fitText
  // ---------------------------------------------------------------------------

  /** One step of `fitText`'s loop: keep `max(1, length - 2)` characters and append "…". */
  function FitStep(value: string): string {
    SliceTo(value, Max(1, |value| - 2)) + [Ellipsis]
  }

  /** A step shortens by one from three characters on; a two-character value stays two characters. */
  lemma FitStepLength(value: string)
    ensures |value| >= 3 ==> |FitStep(value)| == |value| - 1
    ensures |value| == 2 ==> FitStep(value) == [value[0], Ellipsis] && |FitStep(FitStep(value))| == 2
  {
  }

  /**
    * `fitText` as written, run for at most `fuel` iterations: the final value, or None when
    * the loop condition (more than one character and still too wide) still holds.
    */
  function FitTextAsWritten(measure: string -> int, value: string, maxWidth: int, fuel: nat): Option<string>
    decreases fuel
  {
    if !(|value| > 1 && measure(value) > maxWidth) then Some(value)
    else if fuel == 0 then None
    else FitTextAsWritten(measure, FitStep(value), maxWidth, fuel - 1)
  }

  /** A two-character value that is too wide, and whose shortened form is too wide, never leaves the loop. */
  lemma {:induction false} FitTextAsWrittenStuck(measure: string -> int, value: string, maxWidth: int, fuel: nat)
    requires |value| == 2
    requires forall v: string :: |v| == 2 ==> measure(v) > maxWidth
    ensures FitTextAsWritten(measure, value, maxWidth, fuel) == None
    decreases fuel
  {
    if fuel > 0 {
      FitStepLength(value);
      FitTextAsWrittenStuck(measure, FitStep(value), maxWidth, fuel - 1);
    }
  }

  /**
    * A concrete case: the artist "AR" in a 60-pixel box with 40 pixels per character is
    * still in the loop after any number of iterations.
    */
  lemma FitTextAsWrittenNeverEnds(fuel: nat)
    ensures FitTextAsWritten((s: string) => 40 * |s|, Truncate("AR", 36), 60, fuel) == None
  {
    FitTextAsWrittenStuck((s: string) => 40 * |s|, "AR", 60, fuel);
  }

  /** `k` steps of the loop from `value`. */
  function Shrunk(value: string, k: nat): string
    decreases k
  {
    if k == 0 then value else FitStep(Shrunk(value, k - 1))
  }

  /**
    * `fitText` with the loop stopping at two characters, where a step no longer shortens the
    * value. The result is the first of the successively shortened values that fits, or the
    * two-character one; it is the truncated text itself, or a prefix of it followed by "…".
    */
  method FitText(measure: string -> int, text: string, maxWidth: int, maxLen: int)
    returns (value: string, steps: nat)
    ensures value == Shrunk(Truncate(text, maxLen), steps)
    ensures |value| <= 2 || measure(value) <= maxWidth
    ensures forall k :: 0 <= k < steps ==>
              |Shrunk(Truncate(text, maxLen), k)| > 2 && measure(Shrunk(Truncate(text, maxLen), k)) > maxWidth
    ensures var v0 := Truncate(text, maxLen);
      value == v0 || (2 <= |value| <= |v0| && value[|value| - 1] == Ellipsis
                      && value[..|value| - 1] == v0[..|value| - 1])
  {
    var v0 := Truncate(text, maxLen);
    value, steps := v0, 0;
    while |value| > 2 && measure(value) > maxWidth
      invariant value == Shrunk(v0, steps)
      invariant forall k :: 0 <= k < steps ==> |Shrunk(v0, k)| > 2 && measure(Shrunk(v0, k)) > maxWidth
      invariant value == v0 || (2 <= |value| <= |v0| && value[|value| - 1] == Ellipsis
                                && value[..|value| - 1] == v0[..|value| - 1])
      decreases |value|
    {
      FitStepLength(value);
      value := SliceTo(value, Max(1, |value| - 2)) + [Ellipsis];
      steps := steps + 1;
    }
  }

  // ---------------------------------------------------------------------------
  // fitTitleFontSize
  // ---------------------------------------------------------------------------

  /**
    * `fitTitleFontSize`: the truncated title, and the font size reached by stepping down by 2
    * from `startSize` until the title fits or the size is no longer above `minSize`. Every
    * larger size tried was above the minimum and too wide.
    */
  method FitTitleFontSize(measure: (string, int) -> int, text: string, maxWidth: int, maxLen: int,
                          startSize: int, minSize: int)
    returns (value: string, size: int)
    ensures value == Truncate(text, maxLen)
    ensures size <= startSize && (startSize - size) % 2 == 0
    ensures size <= minSize || measure(value, size) <= maxWidth
    ensures startSize <= minSize ==> size == startSize
    ensures startSize > minSize ==> size > minSize - 2
    ensures forall s :: size < s <= startSize && (startSize - s) % 2 == 0 ==> s > minSize && measure(value, s) > maxWidth
  {
    value := Truncate(text, maxLen);
    size := startSize;
    while size > minSize
      invariant size <= startSize && (startSize - size) % 2 == 0
      invariant startSize > minSize ==> size > minSize - 2
      invariant startSize <= minSize ==> size == startSize
      invariant forall s :: size < s <= startSize && (startSize - s) % 2 == 0 ==> s > minSize && measure(value, s) > maxWidth
      decreases size - minSize
    {
      if measure(value, size) <= maxWidth {
        break;
      }
      size := size - 2;
    }
  }

  // ---------------------------------------------------------------------------
  // The primary artist
  // ---------------------------------------------------------------------------

  /** `track.artist.split(",")[0]?.trim() || track.artist`. */
  function PrimaryArtist(artist: string): string {
    var first := Strip(Split(artist, ',')[0]);
    if first == "" then artist else first
  }

  /**
    * The primary artist is the trimmed text before the first comma; when that is blank the
    * whole artist string is used instead.
    */
  lemma PrimaryArtistSpec(artist: string)
    ensures var r := PrimaryArtist(artist);
      var before := if ',' in artist then artist[..IndexOf(artist, ',')] else artist;
      && (Strip(before) != "" ==> r == Strip(before) && ',' !in r)
      && (Strip(before) == "" ==> r == artist)
  {
    var before := if ',' in artist then artist[..IndexOf(artist, ',')] else artist;
    assert Split(artist, ',')[0] == before;
    assert ',' !in before by {
      SplitHasNoSeparator(artist, ',');
    }
  }

  /**
    * For a track built by the play command, the card shows the first primary artist's name,
    * trimmed, when that name has no comma and is not blank.
    */
  lemma PrimaryArtistOfArtistLine(names: seq<string>)
    requires |names| >= 1 && ',' !in names[0] && Strip(names[0]) != ""
    ensures PrimaryArtist(TsPlay.ArtistLine(names)) == Strip(names[0])
  {
    if |names| >= 2 {
      var rest := Join(names[1..], ", ");
      assert Join(names, ", ") == names[0] + [','] + (" " + rest);
      SplitCons(names[0], ',', " " + rest);
    } else {
      assert Join(names, ", ") == names[0];
    }
  }
}
