# Chord music bot — a verified model of its playback bookkeeping

Chord is a Discord music bot. It exists in two versions:

- a Python bot (`core/`, `cogs/`, `bot.py`);
- a TypeScript port (`src/`).

Both search the JioSaavn catalog for a song, queue it per guild, play the head of the queue,
count plays, and offer a "24/7" mode in which the bot stays in its voice channel. In 24/7 mode
the Python bot also refills an empty queue with popular songs.

This project models the bookkeeping under the Discord and voice calls, and proves properties
of that model.

- **Python bot.** The model covers:
  - the play-count table and per-guild state (`music_state.dfy`);
  - catalog result selection (`jiosaavn.dfy`);
  - the playback cog's state machine: start-next, after-finish, auto-fill, `play`, `sortqueue`, `popular`, `playcount` and the Stop button (`py_play.dfy`);
  - the 24/7 cog (`py_twentyfourseven.dfy`);
  - `stop`, `leave`, `clear` and `queue` (`py_*.dfy`);
  - the bot's configuration checks (`bot_config.dfy`).

  The per-guild registry `bot.music_states` and its get-or-create `_state` are the class
  `Guilds.MusicStates`. The voice client is a value with connected, playing and paused flags.
- **TypeScript port.** The model covers:
  - the module-level maps and sets of `playerState.ts`, as the class `PlayerState.PlayerState`;
  - the persisted 24/7 file, as `Stay247.Store`;
  - `startNextTrack`, the Idle handler, the card's clock and buttons, and `play` (`ts_play.dfy`, `ts_player_state.dfy`);
  - the `24/7`, `stop` and `queue` commands;
  - the text helpers of the now-playing card;
  - message routing and the ready-time 24/7 restore (`ts_index.dfy`).

Shared pieces:

- `text.dfy`: Python and JavaScript string helpers, namely strip, split, join, lower, and integer parsing and printing.
- `ranking.dfy`: `max` with a key, which returns the first maximal element, and Python's stable `sorted(..., reverse=True)`, written as an insertion sort.
- `wrappers.dfy`: `Option` and `Result`.

Code that changes state in place is modelled as Dafny classes whose methods carry `modifies`
clauses. Each such method is proved equal to a specification function of the old state. The
properties are then lemmas about those functions.

## Model

| member | source | states |
|---|---|---|
| MusicState.TrackId | core/music_state.py:89-91 | with a "/" in the page URL, the id is the text after the last "/" (no "/" in it, a proper suffix preceded by "/"); without one, it is the title |
| Text.LastSegmentIsLastPiece | core/music_state.py:89-91 | the text after the last separator equals the last piece of splitting on that separator, which is how `split("/")[-1]` reads it |
| MusicState.Put | core/music_state.py:57-61 | writing a key sets its count, leaves every other count alone, keeps an existing key's place and puts a new key last (insertion-ordered dict) |
| MusicState.Incremented | core/music_state.py:57-61 | the key's count becomes its old count (0 if absent) plus 1, every other count is unchanged, no count decreases and no key disappears |
| MusicState.Loaded | core/music_state.py:37-48 | a missing or unreadable file loads as the empty table (every count 0); a stored table loads with its counts |
| MusicState.PlayCountManager.Load | core/music_state.py:37-48 | the manager starts valid, holding the loaded table, with nothing saved yet |
| MusicState.PlayCountManager.Increment | core/music_state.py:57-61 | the table becomes the incremented table, the returned value is the previous `get(id)` plus 1, and the new table is what gets saved |
| MusicState.Items | core/music_state.py:67-70 | `items()` lists every key once, in table order, with its count |
| MusicState.PyPrefix | core/music_state.py:67-70 | Python's `s[:n]` is a prefix of `s`, of length `min(n, len)` for `n >= 0` and `max(0, len + n)` for a negative `n` |
| MusicState.SortedItemsSpec | core/music_state.py:67-70 | `get_all_sorted(limit)` returns at most `limit` pairs (for `limit >= 0`), each a key of the table with its count, ordered by non-increasing count |
| MusicState.SortedItemsAreTop | core/music_state.py:67-70 | no key left out of `get_all_sorted` has a higher count than any pair it returns |
| MusicState.SortedItemsKeepTableOrder | core/music_state.py:67-70 | pairs with equal counts keep their table order (the sort is stable) |
| MusicState.TopIds | core/music_state.py:72-74 | `get_top_track_ids` returns keys of the table, in non-increasing count order |
| MusicState.SortedByPlayCountSpec | core/music_state.py:108-114 | sorting the queue by play count is a permutation, puts higher counts first, keeps equal counts in queue order, and a second sort changes nothing |
| MusicState.GuildMusicState.constructor | core/music_state.py:77-87 | a new guild state has an empty queue, nothing playing, 24/7 off and no channel ids, and it shares the given play-count manager |
| MusicState.GuildMusicState.RecordPlay | core/music_state.py:93-101 | recording a play increments exactly the track's id, and `get_play_count` then reads one more than before |
| MusicState.GuildMusicState.SortQueueByPlayCount | core/music_state.py:108-114 | a queue of tracks is replaced by its sort by play count; a queue holding a bare id raises and stays as it was; nothing else changes |
| Guilds.MusicStates.constructor | cogs/music/play.py:132-135 | the registry starts empty and shares one play-count manager |
| Guilds.MusicStates.State | cogs/music/play.py:132-135 | `_state` is get-or-create: a known guild gets its existing state and the registry is unchanged; an unknown guild gets a fresh initial state; no other guild's entry changes |
| Guilds.Stopped | cogs/music/stop.py:28-30 | stopping the voice client ends playback (neither playing nor paused) and leaves its connection as it was |
| JioSaavn.DigitsOf | core/jiosaavn.py:114-117 | the digits kept from a quality label are digits only, and every digit of the label is among them |
| JioSaavn.PickBest | core/jiosaavn.py:109-120 | `_pick_best_url` / `_pick_best_image` give None for an empty list, otherwise the URL of the first entry of maximal quality value |
| JioSaavn.KeepWordChars | core/jiosaavn.py:122-124 | only alphanumerics and whitespace of the input survive |
| JioSaavn.NormalizeText | core/jiosaavn.py:122-124 | `_normalize_text` yields only lowercase alphanumerics and whitespace, with no leading or trailing whitespace |
| JioSaavn.NormalizeTextIdempotent | core/jiosaavn.py:122-124 | normalising twice is normalising once |
| JioSaavn.SelectBestSong | core/jiosaavn.py:126-138 | `_select_best_song` gives None for no songs, otherwise the first song of maximal play count (an int, a digit string, otherwise 0) |
| JioSaavn.DurationValue | core/jiosaavn.py:48 | a missing duration counts as 0, an integer is itself, a digit string is its value |
| JioSaavn.TrackFromSong | core/jiosaavn.py:35-50 | no track exactly when no non-empty stream URL is picked; otherwise the track takes the best URL, first primary artist or "Unknown Artist", page URL, duration and best image; an unparsable duration raises |
| JioSaavn.SearchTracksRaw | core/jiosaavn.py:24-33 | a non-200 status, `success` false or missing results give no songs; otherwise the response's results |
| JioSaavn.SearchFirstTrack | core/jiosaavn.py:14-22 | no results give no track; otherwise the track of the first most-played result |
| JioSaavn.PickSimilar | core/jiosaavn.py:86-107 | nothing when no candidate is left, otherwise the track of the first most-played candidate |
| JioSaavn.SearchSimilarTrack | core/jiosaavn.py:52-107 | the loop keeps exactly the admissible candidates in search order; the artist-only search is issued only when the title-and-artist search found nothing |
| JioSaavn.SimilarTrackIsAdmissible | core/jiosaavn.py:71-84 | a returned track comes from a searched candidate with neither the seed's page URL, nor the seed's normalised title and artist, nor an excluded "name\|artist" key |
| Ranking.FirstMaxIndex | core/jiosaavn.py:119 | Python's `max(items, key=...)` picks the first element of maximal key |
| Ranking.FirstMaxUnique | core/jiosaavn.py:119 | there is only one first maximal element |
| Ranking.SortDescIsStableSort | core/music_state.py:69 | `sorted(..., reverse=True)` keeps length and elements, orders by non-increasing key, and keeps equal keys in input order |
| Ranking.SortDescIdempotent | core/music_state.py:108-114 | sorting an already sorted sequence changes nothing |
| Ranking.SortDescHeadIsFirstMax | src/music/play.ts:202-204 | after a stable descending sort the head is the first maximal element, as `results[0]` reads it |
| Ranking.FilterMembers | core/jiosaavn.py:71-84 | an element survives the filter exactly when it is in the input and passes the test |
| Ranking.FilterInOrder | core/jiosaavn.py:71-84 | the appending loop builds exactly the order-keeping filter |
| PlayCog.FormatDuration | cogs/music/play.py:15-22 | "Unknown" exactly for a non-positive duration |
| PlayCog.FormatDurationRoundTrip | cogs/music/play.py:15-22 | a positive duration prints as a clock that reads back as the same number of seconds, "m:ss" below one hour and "h:mm:ss" from one hour on |
| PlayCog.ClockRoundTrip | cogs/music/play.py:19-22 | any hours, minutes below 60 and seconds below 60 print as a clock that reads back as their total |
| PlayCog.StartNextWhenIdle | cogs/music/play.py:180-186 | without a connected voice client or with an empty queue nothing starts, `now_playing` is cleared and the queue is left alone |
| PlayCog.StartNextPopsHead | cogs/music/play.py:188-217 | otherwise exactly the head leaves the queue; it becomes `now_playing` exactly when it is a track whose source builds and plays; on failure it is not re-queued and the voice client is untouched |
| PlayCog.StartTimesIsFifo | cogs/music/play.py:176-222 | starting `n + 1` times over a queue of tracks plays its entry `n` and leaves the entries after it: first in, first out |
| PlayCog.BareIdNeverStarts | cogs/music/play.py:188-193 | a bare id string at the head is dropped without playing (it has no `stream_url`) |
| PlayCog.StartNextTrack | cogs/music/play.py:176-222 | the guild's state and the voice client become those of the start-next specification; no other guild changes |
| PlayCog.FillFromIdsSources | cogs/music/play.py:275-279 | at most one track per id, each the track the search found for one of the ids |
| PlayCog.FillFromIdsInOrder | cogs/music/play.py:275-279 | ids are searched in rank order: what earlier ids find is appended before what later ids find |
| PlayCog.FillRaisedStays | cogs/music/play.py:275-279 | once a search raises, no later id is searched |
| PlayCog.AutoFillSpec | cogs/music/play.py:257-279 | with no history at most one track, found for the picked popular query; otherwise at most five, each found for one of the five highest-ranked ids |
| PlayCog.SearchEach | cogs/music/play.py:275-279 | the loop over the ids appends exactly what the specification's fill appends and stops at a raising search |
| PlayCog.FillFromPopular | cogs/music/play.py:257-279 | on the guild's state, only the queue changes, and only by appending the auto-fill's tracks |
| PlayCog.PlayMostPopularForGuild | cogs/music/play.py:257-279 | through the registry, the guild's queue gains exactly the auto-fill's tracks at its tail; nothing else changes |
| PlayCog.AfterFinishSpec | cogs/music/play.py:224-255 | one play is recorded for the finished track and no other count changes; a non-empty queue then loses exactly its head to the next start (when connected) and is never refilled |
| PlayCog.RefillThenStartSpec | cogs/music/play.py:251-255 | the refill-then-start tail leaves the counts alone and, with a non-empty queue, only starts its head |
| PlayCog.AfterFinishFillsOnlyEmpty247 | cogs/music/play.py:251-255 | with an empty queue, a guild not in 24/7 mode ends idle with an empty queue; a 24/7 guild is refilled from the top ids of the updated counts, then the refilled queue is started: with a connection its first track leaves the queue and plays exactly when the source builds and plays, and the rest stay queued; a raising fill leaves the added tracks queued and nothing playing |
| PlayCog.AfterTrackFinished | cogs/music/play.py:224-255 | an unknown guild changes nothing; otherwise the state, counts and voice become those of the after-finish specification |
| PlayCog.ClearFinished | cogs/music/play.py:232-249 | the finished track's play is recorded and `now_playing` and its message ids are cleared before anything else happens |
| PlayCog.RefillThenStartNext | cogs/music/play.py:251-255 | after the clear, the state becomes that of the refill-then-start specification |
| PlayCog.RefillIfEmpty | cogs/music/play.py:251-253 | only an empty 24/7 queue is refilled, by appending the auto-fill's tracks |
| PlayCog.Joined | cogs/music/play.py:291-295 | after connecting or moving, the voice client is in the author's channel, keeping its other flags if it existed |
| PlayCog.PlayCommandEnqueues | cogs/music/play.py:306-319 | the found track, stamped with the request ids, goes to the tail; when something plays it is only queued and the reported position is the new queue length; otherwise the queue head starts |
| PlayCog.Play | cogs/music/play.py:281-319 | outside a guild nothing changes; a state is created only when the author is in voice, HTTP is up and a track was found; the state becomes that of the `play` specification |
| PlayCog.QueueFoundTrack | cogs/music/play.py:306-319 | the found track is appended and started or reported queued, as the `play` specification says |
| PlayCog.SortQueue | cogs/music/play.py:321-337 | fewer than two entries leave the queue untouched with the matching reply; otherwise the queue is sorted by play count, or raises on a bare id |
| PlayCog.PopularLimit | cogs/music/play.py:346 | `min(limit, 20)` is never above 20 and keeps any limit up to 20 |
| PlayCog.NumberedLinesSpec | cogs/music/play.py:352-354 | line `i` names the entry of rank `i + 1` with its id and count, and there are no other lines |
| PlayCog.PopularLinesSpec | cogs/music/play.py:352-354 | the heading comes first, then one numbered line per entry |
| PlayCog.BuildPopularLines | cogs/music/play.py:352-354 | the appending loop builds exactly those lines |
| PlayCog.Popular | cogs/music/play.py:339-356 | no history gives no lines; otherwise the heading and the numbered top entries; only the guild's state is created |
| PlayCog.PopularNegativeLimitExceedsCap | cogs/music/play.py:346 | with 25 ids and `limit = -1`, 24 entries are listed, more than the cap of 20 |
| PlayCog.CappedPopularLimit | cogs/music/play.py:346 | the intended limit lies between 0 and 20 and keeps any limit in that range |
| PlayCog.CappedPopularIsAtMost20 | cogs/music/play.py:346 | with the intended limit, never more than 20 entries are listed |
| PlayCog.PlayCount | cogs/music/play.py:358-377 | the reply names the current track's count, else the next track's, else says nothing is queued; a bare id at the head raises; the state is only read |
| PlayCog.ControlsStop | cogs/music/play.py:67-90 | without a known guild and a connected voice client nothing changes; otherwise the queue and current track are cleared, and the bot disconnects unless the guild is in 24/7 mode, where it is refilled and stays |
| PlayCog.StopConnected | cogs/music/play.py:74-90 | with a connected voice client, the guild ends cleared and disconnected, or in 24/7 mode refilled, stopped and still connected |
| PlayCog.ClearForStop | cogs/music/play.py:74-82 | on the guild's state, the queue and current track are cleared, and in 24/7 mode the queue is then exactly the auto-fill's tracks |
| TwentyFourSeven.BareIds | cogs/music/twentyfourseven.py:91-92 | every top id is appended as a bare id string, in rank order |
| TwentyFourSeven.AutoPlayKeepsConnection | cogs/music/twentyfourseven.py:70-96 | auto-play never disconnects or changes 24/7 mode, and only appends the ids and may pop the head |
| TwentyFourSeven.AutoPlayStartsNothing | cogs/music/twentyfourseven.py:84-96 | from an empty queue, auto-play drops the first id without playing it and leaves the others queued |
| TwentyFourSeven.BareQueueNeverPlays | cogs/music/twentyfourseven.py:84-96 | a queue of bare ids never starts a track, however often start-next runs |
| TwentyFourSeven.AutoPlayResolvedStarts | cogs/music/twentyfourseven.py:84-96 | with ids resolved to tracks first, auto-play starts the first track found and queues the rest |
| TwentyFourSeven.ToggleSyncsMode | cogs/music/twentyfourseven.py:28-68 | the toggle flips membership; `mode_247` follows it; disabling clears the voice channel and disconnects; enabling records the author's voice channel and the command channel, and joins the author |
| TwentyFourSeven.ToggleTwice | cogs/music/twentyfourseven.py:41-57 | two toggles, in either order, restore the guild's membership of the 24/7 set, and `mode_247` ends equal to it even if it disagreed before; ending disabled, the channel is forgotten and the bot disconnected; ending enabled, the bot is in the author's channel |
| TwentyFourSeven.TwentyFourSevenCog.constructor | cogs/music/twentyfourseven.py:16 | the cog starts with no guild in its 24/7 set |
| TwentyFourSeven.TwentyFourSevenCog.TwentyFourSevenCommand | cogs/music/twentyfourseven.py:28-68 | outside a guild or without the author in voice nothing changes; otherwise the guild's membership flips and its state becomes the toggle specification's |
| TwentyFourSeven.TwentyFourSevenCog.ToggleIn | cogs/music/twentyfourseven.py:38-68 | the guild's membership flips and its state follows the toggle specification |
| TwentyFourSeven.TwentyFourSevenCog.DisableIn | cogs/music/twentyfourseven.py:41-50 | disabling turns `mode_247` off, drops the voice channel and disconnects |
| TwentyFourSeven.TwentyFourSevenCog.EnableIn | cogs/music/twentyfourseven.py:52-68 | enabling sets mode and channels, joins the author's channel and auto-plays |
| TwentyFourSeven.TwentyFourSevenCog.PlayMostPopular | cogs/music/twentyfourseven.py:70-96 | without the playback cog (`PlayCog`) loaded nothing changes; otherwise the guild's state becomes that of the auto-play specification |
| TwentyFourSeven.TwentyFourSevenCog.QueueIds | cogs/music/twentyfourseven.py:91-92 | the append loop yields exactly the bare-id entries |
| TwentyFourSeven.TwentyFourSevenCog.OnVoiceStateUpdate | cogs/music/twentyfourseven.py:98-120 | only a voice-state update of a non-bot member (joining, moving, muting or leaving) in a connected 24/7 guild that has no listeners, no queue and nothing playing triggers auto-play; the connection is never dropped |
| TwentyFourSeven.TwentyFourSevenCog.HandleTrackFinished | cogs/music/twentyfourseven.py:122-135 | only a connected 24/7 guild with an empty queue auto-plays; nothing else changes |
| StopCog.StopSpec | cogs/music/stop.py:12-42 | a connected bot leaves exactly when the guild is not in 24/7 mode, otherwise stops its source and stays; a known guild ends with nothing playing, no worker task and an empty (or refilled, at most five) queue; an unknown guild is untouched |
| StopCog.StopCommand | cogs/music/stop.py:12-42 | no state is created, and the guild's state and voice become those of the stop specification |
| LeaveCog.LeaveSpec | cogs/music/leave.py:12-36 | a 24/7 guild is refused and untouched; otherwise the queue and current track are cleared, the bot ends out of voice, and the reply says whether it was connected |
| LeaveCog.LeaveCommand | cogs/music/leave.py:12-36 | no state is created, and the guild's state and voice become those of the leave specification |
| ClearCog.ClearSpec | cogs/music/clear.py:12-25 | only the queue changes, and only to empty; the reply counts exactly the removed entries; a missing or empty queue gives "Queue is already empty." |
| ClearCog.ClearCommand | cogs/music/clear.py:12-25 | no state is created, and the guild's state becomes that of the clear specification |
| QueueCog.UpNextLinesSpec | cogs/music/queue.py:35-37 | the shown entries are numbered from 1 in queue order; a bare id among them raises |
| QueueCog.UpNextStaysNone | cogs/music/queue.py:36-37 | once an entry raises, the listing fails whatever follows |
| QueueCog.NumberEntries | cogs/music/queue.py:36-37 | the numbering loop builds exactly the specified lines |
| QueueCog.QueueLinesSpec | cogs/music/queue.py:23-43 | with a queue, the "Now:" line (if any) comes first, then "Up next:", at most ten numbered entries and "...and N more" exactly when more than ten wait, shown plus counted being the queue length |
| QueueCog.QueueLinesWhenEmpty | cogs/music/queue.py:14-33 | a missing state or an empty queue gives "Queue is empty.", or the Now line and "Up next: empty" when something plays |
| QueueCog.QueueCommand | cogs/music/queue.py:12-43 | the reply is the queue listing of the guild's state, and nothing is changed or created |
| BotConfig.ConfigureFails | bot.py:24-38 | configuration fails exactly when the stripped base URL is blank, the seconds are not an integer, or the stripped owner id is not all digits, reporting the first of these |
| BotConfig.ConfigureSpec | bot.py:20-38 | a valid configuration keeps the prefix, strips the base URL's trailing slashes, enables auto-delete exactly for 1/true/yes/on, clamps the seconds at 0 and reads the owner id as a number |
| BotConfig.BaseUrlSpec | bot.py:24-27 | the stored base URL is the stripped value without its trailing slashes |
| BotConfig.Defaults | bot.py:20-34 | the prefix defaults to ";", auto-delete to enabled and the seconds to 12 |
| Text.StripIdempotent | bot.py:24 | stripping twice is stripping once |
| Text.JoinSplit | src/index.ts:122-123 | joining the pieces of a split with the separator gives back the text |
| Text.SplitJoin | src/index.ts:122-123 | splitting a join of separator-free pieces gives back the pieces |
| Text.ParsePyIntOfIntToString | bot.py:34 | `int(str(i))` is `i` for every integer |
| Text.DigitsValueOfNatToString | cogs/music/queue.py:37 | a printed number reads back as itself |
| PlayerState.PlayerState.constructor | src/music/playerState.ts:1-21 | all maps and sets start empty, beside the given 24/7 file |
| PlayerState.StartNextSpec | src/music/play.ts:39-53 | a track starts exactly with a player, a connection and a non-empty queue, and the old queue is the started track followed by the new queue; without a player or connection nothing changes; with an empty queue only the now-playing entry goes; no other guild changes |
| PlayerState.StartsInQueueOrder | src/music/play.ts:39-53 | successive starts play the queue in order |
| PlayerState.StartNextTrack | src/music/play.ts:39-53 | the maps and the result become those of the start-next specification |
| TsPlay.ElapsedInRange | src/music/play.ts:87-91 | the elapsed time lies between 0 and the duration |
| TsPlay.ElapsedFrozenWhilePaused | src/music/play.ts:87-91 | while paused, the elapsed time does not move |
| TsPlay.PauseThenResume | src/music/play.ts:125-139 | a pause and a resume add the pause's length to the paused total and clear the pause, so the elapsed time shifts by exactly that length |
| TsPlay.PressedSpec | src/music/play.ts:118-156 | a press by anyone but the requester changes nothing; pause/resume toggles the player and the clock; skip stops the player; stop removes the guild from every map, set and the 24/7 file, touching no other guild |
| TsPlay.Session.constructor | src/music/play.ts:83-85 | a card's clock starts now, unpaused, with no paused time |
| TsPlay.Session.Elapsed | src/music/play.ts:87-91 | the elapsed seconds follow the clock specification and lie between 0 and the duration |
| TsPlay.Session.Collect | src/music/play.ts:118-156 | the clock, maps and 24/7 file become those of the button-press specification |
| TsPlay.IdleSpec | src/music/play.ts:252-265 | the next track starts if it can; otherwise the guild loses its player and queue, and keeps its connection exactly when it is in 24/7 mode and had one |
| TsPlay.OnIdle | src/music/play.ts:252-265 | the maps become those of the Idle specification |
| TsPlay.ChosenIsFirstMax | src/music/play.ts:202-204 | the chosen song is the first result with the highest play count (missing counts as 0) |
| TsPlay.Find320Spec | src/music/play.ts:205 | the 320kbps lookup finds the first such entry, or nothing when there is none |
| TsPlay.StreamUrlSpec | src/music/play.ts:205 | the stream URL is the first 320kbps entry's, otherwise the last entry's, and none only for no entries |
| TsPlay.ArtistLine | src/music/play.ts:209 | the artist line is never empty |
| TsPlay.ArtistLineSpec | src/music/play.ts:209 | no artists give "Unknown Artist"; otherwise the names joined by ", " |
| TsPlay.EnqueueSpec | src/music/play.ts:219-292 | a join that never becomes ready fails; otherwise the track goes to the tail, and it is only queued when something plays, else the head starts |
| TsPlay.EnqueueKeepsOthers | src/music/play.ts:219-292 | enqueueing touches only the guild, leaves the 24/7 entries alone and keeps the maps consistent |
| TsPlay.PlaySpec | src/music/play.ts:174-298 | the no-voice, no-argument, no-result and failed-search replies change nothing; otherwise the first most-played result is enqueued |
| TsPlay.EnqueueTrack | src/music/play.ts:219-292 | the maps and reply become those of the enqueue specification |
| TsPlay.PlayCommand | src/music/play.ts:174-298 | the maps and reply become those of the play specification |
| Stay247.Parsed | src/music/stay247State.ts:12-21 | an unreadable or unparsable file, null or a primitive reads as the empty map; an object reads as its entries; an array passes the `typeof` test and reads as its index-named entries |
| Stay247.SetSpec | src/music/stay247State.ts:28-32 | after a set the guild maps to the channel, except on a file holding an array with a key that is not an index, which is written back unchanged; every other key is unchanged |
| Stay247.RemoveSpec | src/music/stay247State.ts:34-38 | after a remove the guild is absent and every other key is unchanged |
| Stay247.RemoveIdempotent | src/music/stay247State.ts:34-38 | removing twice is removing once |
| Stay247.SetThenRemove | src/music/stay247State.ts:28-38 | a set followed by a remove leaves no entry and reads as the remove alone; the files are equal too unless the set grew an array |
| Stay247.UpdateRewritesFile | src/music/stay247State.ts:23-38 | an update of a file without an array writes a whole object, even over an unreadable file; an array stays an array, untouched by a key that is not an index |
| Stay247.GuildIdOnArrayNotSaved | src/music/stay247State.ts:12-38 | a guild id of more than ten digits is no array index, so on a file holding an array enabling 24/7 saves nothing and the file is written back as it was |
| Stay247.ArrayEntry | src/music/stay247State.ts:12-21 | a key is an entry of an array file exactly when it is an array index (canonical decimal below 2^32 − 1) whose element is a string, and it maps to that string |
| Stay247.SetIndexEntry | src/music/stay247State.ts:28-32 | on an array, assigning index `i` makes it hold the channel (holes fill any gap) and leaves every other key as it was |
| Stay247.RemoveIndexEntry | src/music/stay247State.ts:34-38 | on an array, deleting index `i` leaves a hole there and every other key as it was |
| Stay247.ArrayReadsAsIndices | src/music/stay247State.ts:12-21 | the file `["x"]` reads as the entry "0" to "x" |
| Stay247.Store.constructor | src/music/stay247State.ts:12-21 | the store holds the given file |
| Stay247.Store.Read | src/music/stay247State.ts:12-21 | reading yields the parsed map, empty for a bad file, index-named for an array |
| Stay247.Store.Set | src/music/stay247State.ts:28-32 | the file becomes the set specification's |
| Stay247.Store.Remove | src/music/stay247State.ts:34-38 | the file becomes the remove specification's |
| TsTwentyFourSeven.ShouldEnableSpec | src/music/twentyfourseven.ts:15-23 | compared lowercased, on/enable/true enable, off/disable/false disable, and anything else (or no argument) toggles |
| TsTwentyFourSeven.ShouldEnableIgnoresCase | src/music/twentyfourseven.ts:16 | "ON" enables and "Off" disables |
| TsTwentyFourSeven.ToggleSpec | src/music/twentyfourseven.ts:11-67 | without a guild nothing changes; enabling without a voice channel only replies; otherwise it enables or disables |
| TsTwentyFourSeven.EnableSpec | src/music/twentyfourseven.ts:25-48 | enabling fails only when a needed join never becomes ready; otherwise the guild is in 24/7 mode with its channel recorded and persisted (a file holding an array, whose keys the guild id is not, is left as it was), and it has a connection |
| TsTwentyFourSeven.DisableSpec | src/music/twentyfourseven.ts:51-66 | disabling removes the guild from the set, the channel map and the file, and tears down connection, player and queue only when nothing is queued or playing |
| TsTwentyFourSeven.ToggleTwice | src/music/twentyfourseven.ts:15-66 | toggling twice without an argument restores the guild's 24/7 membership |
| TsTwentyFourSeven.TwentyFourSevenCommand | src/music/twentyfourseven.ts:11-67 | the maps, file and reply become those of the toggle specification |
| TsTwentyFourSeven.EnableStay | src/music/twentyfourseven.ts:32-47 | the maps, file and reply become those of the enable specification |
| TsTwentyFourSeven.DisableStay | src/music/twentyfourseven.ts:51-66 | the maps, file and reply become those of the disable specification |
| TsStop.StopSpec | src/music/stop.ts:6-29 | with the author in voice and a live connection, every entry of the guild and its persisted 24/7 entry go; otherwise nothing changes; no other guild or key is touched |
| TsStop.StopCommand | src/music/stop.ts:6-29 | the maps, file and reply become those of the stop specification |
| TsQueue.FormatDurationRoundTrip | src/music/queue.ts:4-9 | the text reads back as the clamped number of seconds and always has two fields: minutes never become hours |
| TsQueue.MinutesSecondsReadBack | src/music/queue.ts:6-8 | unpadded minutes and two-digit seconds read back as their total |
| TsQueue.FormatDurationZero | src/music/nowPlayingCard.ts:12-17 | the card's copy of the formatter gives "0:00" exactly for a non-positive duration |
| TsQueue.RenderAll | src/music/queue.ts:23-39 | each line is rendered on its own |
| TsQueue.RenderAllAppend | src/music/queue.ts:23-39 | rendering distributes over concatenation |
| TsQueue.RenderDistinguishes | src/music/queue.ts:24-35 | the Now Playing, numbered and "more" lines can never be confused, and only the separator line is blank |
| TsQueue.UpNextLinesSpec | src/music/queue.ts:30-33 | the shown tracks are numbered from 1 in order |
| TsQueue.QueueLinesSpec | src/music/queue.ts:16-37 | "Queue is empty." exactly when nothing plays or waits; otherwise the Now Playing line first, then a blank line, "Up Next:", at most ten numbered tracks, and "...and N more" exactly when more than ten wait |
| TsQueue.QueueCommand | src/music/queue.ts:11-40 | the reply is the listing of the guild's current track and queue, and nothing changes |
| TsQueue.NumberTracks | src/music/queue.ts:30-33 | the counted loop builds exactly the numbered lines |
| NowPlayingCard.SliceTo | src/music/nowPlayingCard.ts:21 | `slice(0, end)` is a prefix, of length `end` when that is in range |
| NowPlayingCard.TruncateSpec | src/music/nowPlayingCard.ts:19-22 | a fitting text is unchanged; a longer one becomes exactly `maxLen` characters ending in "…"; truncating again changes nothing |
| NowPlayingCard.FitStepLength | src/music/nowPlayingCard.ts:27 | a step shortens by one from three characters on, while a two-character value stays two characters |
| NowPlayingCard.FitTextAsWrittenStuck | src/music/nowPlayingCard.ts:24-30 | as written, a two-character value that is still too wide never leaves the loop |
| NowPlayingCard.FitTextAsWrittenNeverEnds | src/music/nowPlayingCard.ts:24-30 | a concrete artist name and width on which the loop as written never ends |
| NowPlayingCard.FitText | src/music/nowPlayingCard.ts:24-30 | the corrected loop returns the truncated text shortened step by step until it fits or is two characters long; every skipped value was too wide; the result keeps a prefix of the text and ends in "…" when shortened |
| NowPlayingCard.FitTitleFontSize | src/music/nowPlayingCard.ts:32-48 | the text is the truncated title; the size starts at `startSize` and falls by 2 until the text fits or the size reaches `minSize`; every larger size tried was too wide |
| NowPlayingCard.PrimaryArtistSpec | src/music/nowPlayingCard.ts:144 | the primary artist is the trimmed text before the first comma, or the whole artist string when that is blank |
| NowPlayingCard.PrimaryArtistOfArtistLine | src/music/nowPlayingCard.ts:144 | on an artist line built by `play`, the primary artist is the first artist's trimmed name |
| TsIndex.RouteSpec | src/index.ts:116-125 | bot messages and messages not starting with ";" are ignored; others are dispatched on their tokens |
| TsIndex.RouteCommandSpec | src/index.ts:127-176 | "24/7" and "247" both reach the 24/7 handler; reload and restart run only for the owner, others get "Owner only command."; an unknown command runs nothing |
| TsIndex.HandlerForSpec | src/index.ts:127-149 | exactly play, stop, skip, ping, queue, 24/7 and 247 have a handler |
| TsIndex.TokensOfCommandLine | src/index.ts:122-125 | a prefix followed by single-space-separated words reads back as the lowercased first word and the other words |
| TsIndex.JoinOfWordsIsTrimmed | src/index.ts:122-123 | a line of words has no leading or trailing whitespace, so trimming keeps it |
| TsIndex.RestoreAllAt | src/index.ts:82-114 | each persisted guild whose channel is found and becomes ready is back in 24/7 mode with its channel and a connection; other persisted guilds keep their 24/7 entries; unlisted guilds are untouched |
| TsIndex.RestoreAllFrame | src/index.ts:82-114 | the restore never touches queues, players, current tracks or text channels, only adds to the connections and 24/7 set, and keeps the maps consistent |
| TsIndex.RestoreStay247 | src/index.ts:82-114 | the loop over the persisted entries leaves the maps as the restore specification says |

## Left out

- HTTP, the catalog API and `html.unescape` are parameters: `Fetch` answers a query and limit with a status, a success flag and optional results; `Unescape` is any function on strings; `search` in the cogs is any function from query to result.
- The Discord library (contexts, messages, embeds, channels, guild members) is left out. The facts it supplies are parameters: whether the author is in voice, the channel and message ids, whether the playback cog (`PlayCog`) is loaded, and the number of listeners.
- The voice library is left out. The voice client is a value with connected, playing and paused flags. Whether a source builds and whether `play` succeeds are parameters (`sourceOk`, `playOk`). The sent now-playing message is an optional parameter. Moving, connecting and disconnecting are modelled by their effect on that value.
- FFmpeg, the audio player, the progress ticker, collector timeouts and message deletion in the TypeScript `startNextTrack` are left out. The Discord connection is modelled only as the guild's membership in the connection map, plus a separate "live" set for the library's own `getVoiceConnection`.
- `random.choice` is the parameter `pick`. `Date.now()` is the parameter `now`.
- Concurrency is left out: the cross-thread hand-off in `_after_play`, its timeout, and the cancellation of a running worker task. Each handler runs to completion, and `worker_task` is only reset.
- Rendering is left out: embeds, the canvas drawing of the card, floating-point geometry, emoji loading and `_send_now_playing`'s message edits. Text width is a parameter function.
- Characters are ASCII: `isalnum`, `isspace`, `isdigit`, `lower` and JavaScript `trim` and `toLowerCase` are modelled on ASCII only, with no Unicode tables or UTF-16 surrogate pairs.
- Text.IsSpace: Python's `isspace` and `strip` also count the separators \x1c–\x1f as whitespace, which JavaScript's `trim` does not; the one shared predicate follows `trim`, so the Python side keeps those four characters.
- The iteration order of `Object.entries` in the ready-time restore is a parameter `order`, which lists the persisted keys once each.
- Stay247.Parsed: an array element that is `null` is left out of the entries, where `Object.entries` lists it with a null channel, which the ready-time restore cannot join either; stored values of any other non-string JSON type are not modelled.
- File I/O is left out. The play-count file is a stored table or nothing (`StoredCounts`). `_save` is the `saved` field. The 24/7 file is a `Disk` value. Write failures are not modelled.
- `PlayCountManager` is a shared object handed to every guild state. In the source it is a class-level singleton.
- The Stop button and `_play_most_popular_for_guild` act on the guild's state object directly (`PlayCog.ClearForStop`, `PlayCog.FillFromPopular`), since that object is what the registry returns for the guild.
- Thin commands are not modelled: `pause`, `resume`, `skip`, `nowplaying`, `ping`, `reload`'s module loading, `cleanup` and `setup_hook`. The TypeScript `reload` and `restart` are modelled only as the actions `RouteCommand` returns.
- The TypeScript `formatDuration` appears twice in the source. It is modelled once, as `TsQueue.FormatDuration`, covering the copy in `queue.ts` and the identical one in `nowPlayingCard.ts`.
- JioSaavn.KeepWordChars: states only that every kept character was in the input and is alphanumeric or whitespace, not that every such character is kept. `NormalizeTextIdempotent` uses the converse for already-normal text.
- JioSaavn.DigitsOf: states containment, not that the digits keep their order.
- Text.ParsePyInt: reads decimal digits only; Python `int` also accepts digit-group underscores ("1_0") and non-ASCII digits, which the model rejects.
- JioSaavn.DurationValue: the duration field is missing, an integer or text; a float or a bool, which `int(...)` would also accept, is not modelled because the catalog sends integers or digit strings.
- TsIndex.TokensOfCommandLine: states the tokenising only for lines of words separated by single spaces. Repeated spaces, which the source turns into empty arguments, follow from the `Tokens` definition but have no lemma.
- Messages longer than Discord's limits, `reply_and_cleanup`'s delayed deletion, and the auto-delete timer are not modelled.

## Findings

| source | as written | input that shows it | evidently intended | confidence | as-written member | corrected member |
|---|---|---|---|---|---|---|
| cogs/music/twentyfourseven.py:84-96 | 24/7 auto-play appends the top track ids, which are plain strings, to a queue of tracks, then starts the head | any play history with an empty queue: start-next drops the id string (it has no `stream_url`) and nothing plays | resolve each id to a track first, as `_play_most_popular_for_guild` in cogs/music/play.py does | not executed | TwentyFourSeven.AutoPlayStartsNothing | TwentyFourSeven.AutoPlayResolvedStarts |
| cogs/music/play.py:346 | `popular` caps its limit with `min(limit, 20)` only | `limit = -1` with 25 ids: `[:-1]` lists 24 entries | list at most 20 entries | not executed | PlayCog.PopularNegativeLimitExceedsCap | PlayCog.CappedPopularIsAtMost20 |
| src/music/nowPlayingCard.ts:24-30 | `fitText` loops while the value has more than one character and is too wide; a two-character value steps to itself | artist "AR" with a maximum width of 60 and 40 units per character: "AR" becomes "A…", which is still too wide, forever (latent: the only call site, nowPlayingCard.ts:145, uses a width of 772 at 34px, where any two characters fit) | stop once the value cannot get shorter | not executed | NowPlayingCard.FitTextAsWrittenNeverEnds | NowPlayingCard.FitText |

The cogs keep the code as written in the first two rows. `TwentyFourSevenCog.PlayMostPopular`
queues bare ids, and `PlayCog.Popular` uses `min(limit, 20)`. These are observable behaviours
of the bot, and the corrected definitions stand beside them. `NowPlayingCard.FitText` is the
corrected loop, because the loop as written has no terminating model.
