/**
  * Result selection over the JioSaavn search API (core/jiosaavn.py). Songs are the
  * JSON records of the API with every field that may be missing made explicit; the
  * HTTP request is an oracle from (query, limit) to the decoded response, and
  * `html.unescape` an opaque text function.
  */
module JioSaavn {
  import opened Wrappers
  import opened Text
  import opened Ranking
  import opened MusicState

  /** One entry of `downloadUrl` or `image`: `quality` absent reads as "", `url` may be absent. */
  datatype Variant = Variant(quality: string, url: Option<string>)

  /** One entry of `artists.primary`; `name` may be absent. */
  datatype Artist = Artist(name: Option<string>)

  /** The JSON value found under `playCount`. A JSON boolean is a Python `int` too. */
  datatype PlayCountField = PlayInt(n: int) | PlayText(s: string) | PlayBool(b: bool) | PlayOther

  /** The JSON value found under `duration` (absent and `null` are alike). */
  datatype DurationField = NoDuration | DurationInt(n: int) | DurationText(s: string)

  /**
    * A song record. Absent fields read as: `name` None, `url` None, `artists.primary`
    * (absent, null or empty) as [], `image` and `downloadUrl` likewise as [].
    */
  datatype Song = Song(
    name: Option<string>,
    url: Option<string>,
    primaryArtists: seq<Artist>,
    duration: DurationField,
    image: seq<Variant>,
    downloadUrl: seq<Variant>,
    playCount: PlayCountField)

  /** The decoded search response: HTTP status, the truthiness of `success`, and `data.results` if present and not null. */
  datatype Response = Response(status: int, success: bool, results: Option<seq<Song>>)

  /** The network: the decoded response to a song search for `query` with `limit`. */
  type Fetch = (string, int) -> Response

  /** `html.unescape`. */
  type Unescape = string -> string

  /** The digits of `s`, in order. */
  function DigitsOf(s: string): (d: string)
    ensures AllDigits(d) && |d| <= |s|
    ensures forall i :: 0 <= i < |s| && IsDigit(s[i]) ==> s[i] in d
    decreases |s|
  {
    if s == [] then []
    else (if IsDigit(s[0]) then [s[0]] else []) + DigitsOf(s[1..])
  }

  /** `quality_value`: the digits of `quality` read as one number, 0 when there are none. */
  function QualityValue(v: Variant): int {
    var d := DigitsOf(v.quality);
    if d != [] then DigitsValue(d) else 0
  }

  /** `_pick_best_url` and `_pick_best_image` (the same code): the `url` of the first best-quality entry. */
  function PickBest(items: seq<Variant>): (r: Option<string>)
    ensures items == [] ==> r == None
    ensures items != [] ==> exists i :: IsFirstMax(items, QualityValue, i) && r == items[i].url
  {
    if items == [] then None
    else
      var i := FirstMaxIndex(items, QualityValue);
      assert IsFirstMax(items, QualityValue, i);
      items[i].url
  }

  /** The characters `_normalize_text` keeps: alphanumerics and whitespace. */
  function KeepWordChars(s: string): (r: string)
    ensures forall c :: c in r ==> c in s && (IsAlnum(c) || IsSpace(c))
    decreases |s|
  {
    if s == [] then []
    else (if IsAlnum(s[0]) || IsSpace(s[0]) then [s[0]] else []) + KeepWordChars(s[1..])
  }

  ghost predicate IsNormalChar(c: char) {
    (IsAlnum(c) && !IsUpper(c)) || IsSpace(c)
  }

  /** `_normalize_text`: alphanumerics and whitespace only, lowercased, stripped. */
  function NormalizeText(text: string): (r: string)
    ensures forall c :: c in r ==> IsNormalChar(c)
    ensures r == [] || (!IsSpace(r[0]) && !IsSpace(r[|r| - 1]))
  {
    var kept := KeepWordChars(text);
    var lowered := LowerStr(kept);
    assert forall c :: c in lowered ==> IsNormalChar(c) by {
      forall c | c in lowered ensures IsNormalChar(c) {
        var i :| 0 <= i < |lowered| && lowered[i] == c;
        assert kept[i] in kept;
      }
    }
    Strip(lowered)
  }

  lemma {:induction false} KeepWordCharsOfKept(s: string)
    requires forall c :: c in s ==> IsNormalChar(c)
    ensures KeepWordChars(s) == s
    decreases |s|
  {
    if s != [] {
      assert s[0] in s;
      KeepWordCharsOfKept(s[1..]);
      assert s == [s[0]] + s[1..];
    }
  }

  lemma LowerStrOfLower(s: string)
    requires forall c :: c in s ==> !IsUpper(c)
    ensures LowerStr(s) == s
  {
    assert forall i :: 0 <= i < |s| ==> s[i] in s;
  }

  /** Normalising twice gives what normalising once gives. */
  lemma NormalizeTextIdempotent(text: string)
    ensures NormalizeText(NormalizeText(text)) == NormalizeText(text)
  {
    var n := NormalizeText(text);
    KeepWordCharsOfKept(n);
    LowerStrOfLower(n);
    StripOfStripped(n);
  }

  /** `play_count` in `_select_best_song`: an int (or bool), a string of digits, anything else 0. */
  function PlayCountValue(f: PlayCountField): int {
    match f
    case PlayInt(n) => n
    case PlayBool(b) => if b then 1 else 0
    case PlayText(s) => if IsDigitString(s) then DigitsValue(s) else 0
    case PlayOther => 0
  }

  function SongPlayCount(s: Song): int { PlayCountValue(s.playCount) }

  /** `_select_best_song`: the first song with the highest play count (the query is not used). */
  function SelectBestSong(songs: seq<Song>): (r: Option<Song>)
    ensures songs == [] ==> r == None
    ensures songs != [] ==> exists i :: IsFirstMax(songs, SongPlayCount, i) && r == Some(songs[i])
  {
    if songs == [] then None
    else
      var i := FirstMaxIndex(songs, SongPlayCount);
      assert IsFirstMax(songs, SongPlayCount, i);
      Some(songs[i])
  }

  /** `int(song.get("duration") or 0)`; None is the ValueError of `int` on text that is not a number. */
  function DurationValue(f: DurationField): (r: Option<int>)
    ensures f.NoDuration? ==> r == Some(0)
    ensures f.DurationInt? ==> r == Some(f.n)
    ensures f.DurationText? && IsDigitString(f.s) ==> r == Some(DigitsValue(f.s) as int)
  {
    match f
    case NoDuration => Some(0)
    case DurationInt(n) => Some(n)
    case DurationText(s) =>
      if s == "" then Some(0)
      else
        (if IsDigitString(s) then ParsePyIntOfDigits(s); ParsePyInt(s) else ParsePyInt(s))
  }

  /** The artist `track_from_song` reports: the first primary artist's name, else "Unknown Artist". */
  function ArtistName(s: Song): string {
    if s.primaryArtists == [] then "Unknown Artist"
    else s.primaryArtists[0].name.GetOr("Unknown Artist")
  }

  /**
    * `track_from_song`: no track without a usable stream URL; otherwise a track built from the
    * record's fields with their defaults. An unparsable duration raises, reported as `Err`.
    */
  function TrackFromSong(song: Song, unescape: Unescape): (r: Result<Option<Track>, string>)
    ensures (PickBest(song.downloadUrl) == None || PickBest(song.downloadUrl) == Some("")) <==> r == Ok(None)
    ensures r.Ok? && r.value.Some? ==>
      var t := r.value.value;
      && Some(t.streamUrl) == PickBest(song.downloadUrl) && t.streamUrl != ""
      && t.title == unescape(song.name.GetOr("Unknown Title"))
      && t.artist == unescape(ArtistName(song))
      && t.pageUrl == song.url.GetOr("")
      && Some(t.duration) == DurationValue(song.duration)
      && t.imageUrl == PickBest(song.image)
      && t.requestChannelId == None && t.requestMessageId == None && t.playCount == 0
    ensures r.Err? <==> PickBest(song.downloadUrl).Some? && PickBest(song.downloadUrl) != Some("")
                          && DurationValue(song.duration) == None
  {
    var streamUrl := PickBest(song.downloadUrl);
    if streamUrl == None || streamUrl == Some("") then Ok(None)
    else
      var duration := DurationValue(song.duration);
      if duration == None then Err("ValueError")
      else
        Ok(Some(Track(
          unescape(song.name.GetOr("Unknown Title")),
          streamUrl.value,
          song.url.GetOr(""),
          unescape(ArtistName(song)),
          duration.value,
          PickBest(song.image),
          None, None, 0)))
  }

  /** `search_tracks_raw`: the results of a successful (status 200, `success` true) response, else []. */
  function SearchTracksRaw(fetch: Fetch, query: string, limit: int): (r: seq<Song>)
    ensures var resp := fetch(query, limit);
      && (resp.status != 200 || !resp.success || resp.results == None ==> r == [])
      && (resp.status == 200 && resp.success && resp.results.Some? ==> r == resp.results.value)
  {
    var resp := fetch(query, limit);
    if resp.status != 200 then []
    else if !resp.success then []
    else resp.results.GetOr([])
  }

  /** `search_first_track`: no track without results, else `track_from_song` of the most played result. */
  function SearchFirstTrack(fetch: Fetch, unescape: Unescape, query: string): (r: Result<Option<Track>, string>)
    ensures SearchTracksRaw(fetch, query, 20) == [] ==> r == Ok(None)
    ensures var songs := SearchTracksRaw(fetch, query, 20);
      songs != [] ==> exists i :: IsFirstMax(songs, SongPlayCount, i) && r == TrackFromSong(songs[i], unescape)
  {
    var results := SearchTracksRaw(fetch, query, 20);
    if results == [] then Ok(None)
    else
      var song := SelectBestSong(results);
      TrackFromSong(song.value, unescape)
  }

  /** The normalised artist of a candidate in `search_similar_track`: "" when there is no primary artist. */
  function CandidateArtist(s: Song): string {
    if s.primaryArtists == [] then "" else NormalizeText(s.primaryArtists[0].name.GetOr(""))
  }

  function CandidateName(s: Song): string {
    NormalizeText(s.name.GetOr(""))
  }

  /** A candidate `search_similar_track` keeps: not the seed's page, not the seed's title and artist, not excluded. */
  predicate Admissible(seed: Track, exclude: set<string>, s: Song) {
    var seedUrl := Strip(seed.pageUrl);
    && !(seedUrl != "" && Strip(s.url.GetOr("")) == seedUrl)
    && !(CandidateName(s) == NormalizeText(seed.title) && CandidateArtist(s) == NormalizeText(seed.artist))
    && CandidateName(s) + "|" + CandidateArtist(s) !in exclude
  }

  /** The admissible candidates, in the order the search returned them. */
  function SimilarCandidates(seed: Track, exclude: set<string>, songs: seq<Song>): seq<Song> {
    Filter(songs, AdmissibleFor(seed, exclude))
  }

  function AdmissibleFor(seed: Track, exclude: set<string>): Song -> bool {
    s => Admissible(seed, exclude, s)
  }

  /** The end of `search_similar_track`: nothing when no candidate is left, else the most played one's track. */
  function PickSimilar(filtered: seq<Song>, unescape: Unescape): (r: Result<Option<Track>, string>)
    ensures filtered == [] ==> r == Ok(None)
    ensures filtered != [] ==>
      exists i :: IsFirstMax(filtered, SongPlayCount, i) && r == TrackFromSong(filtered[i], unescape)
  {
    if filtered == [] then Ok(None)
    else TrackFromSong(SelectBestSong(filtered).value, unescape)
  }

  /** The query of `search_similar_track`: title and artist, stripped. */
  function SimilarQuery(seed: Track): string {
    Strip(seed.title + " " + seed.artist)
  }

  /** The candidates `search_similar_track` filters: those of the base query, or of the artist alone if there were none. */
  function SimilarSearch(fetch: Fetch, seed: Track): seq<Song> {
    var first := SearchTracksRaw(fetch, SimilarQuery(seed), 20);
    if first != [] then first else SearchTracksRaw(fetch, seed.artist, 20)
  }

  /**
    * `search_similar_track`. The loop keeps the admissible candidates in search order;
    * `queries` lists the searches issued, in order.
    */
  method SearchSimilarTrack(fetch: Fetch, unescape: Unescape, seed: Track, exclude: set<string>)
    returns (r: Result<Option<Track>, string>, queries: seq<string>)
    ensures queries == [SimilarQuery(seed)]
                       + (if SearchTracksRaw(fetch, SimilarQuery(seed), 20) == [] then [seed.artist] else [])
    ensures r == PickSimilar(SimilarCandidates(seed, exclude, SimilarSearch(fetch, seed)), unescape)
  {
    var baseQuery := SimilarQuery(seed);
    queries := [baseQuery];
    var candidates := SearchTracksRaw(fetch, baseQuery, 20);
    if candidates == [] {
      queries := queries + [seed.artist];
      candidates := SearchTracksRaw(fetch, seed.artist, 20);
    }
    assert candidates == SimilarSearch(fetch, seed);
    if candidates == [] {
      return Ok(None), queries;
    }
    var filtered := FilterInOrder(candidates, AdmissibleFor(seed, exclude));
    if filtered == [] {
      return Ok(None), queries;
    }
    var picked := SelectBestSong(filtered);
    r := TrackFromSong(picked.value, unescape);
  }

  /**
    * Whatever `search_similar_track` returns comes from an admissible candidate: never the
    * seed's own page, never the seed's normalised title and artist, never an excluded key.
    */
  lemma SimilarTrackIsAdmissible(fetch: Fetch, unescape: Unescape, seed: Track, exclude: set<string>,
                                  r: Result<Option<Track>, string>)
    requires r == PickSimilar(SimilarCandidates(seed, exclude, SimilarSearch(fetch, seed)), unescape)
    requires r.Ok? && r.value.Some?
    ensures exists s :: s in SimilarSearch(fetch, seed) && Admissible(seed, exclude, s)
                        && r == TrackFromSong(s, unescape)
  {
    var filtered := SimilarCandidates(seed, exclude, SimilarSearch(fetch, seed));
    var i :| IsFirstMax(filtered, SongPlayCount, i) && r == TrackFromSong(filtered[i], unescape);
    FilterMembers(SimilarSearch(fetch, seed), AdmissibleFor(seed, exclude), filtered[i]);
    assert filtered[i] in SimilarSearch(fetch, seed) && Admissible(seed, exclude, filtered[i]);
  }
}
